/**
  The keyed lock behind lockSubscription and lockPayment: one token channel and
  one waiter count per key, in a map entry that is created on demand and deleted
  when its last user is gone.  An entry that was deleted stays reachable for the
  goroutines that fetched it earlier, so entries live in a heap of their own and
  the map only names one of them.
 */
module KeyedLock {
  type Key = nat
  type Goroutine = nat

  /** A lock entry: free tokens in the capacity-one channel, and its users. */
  datatype Entry = Entry(tokens: int, waiters: int)

  /** Where a goroutine stands; `entry` is the object it fetched on arrival. */
  datatype Phase =
    | Waiting(key: Key, entry: nat)
    | Holding(key: Key, entry: nat)
    | Leaving(key: Key, entry: nat)  // token returned or wait given up; dropWaiter still to run

  datatype State = State(locks: map<Key, nat>, heap: seq<Entry>, phase: map<Goroutine, Phase>)

  datatype Step =
    | Arrive(g: Goroutine, key: Key)
    | Acquire(g: Goroutine)
    | GiveUp(g: Goroutine)
    | ReturnToken(g: Goroutine)
    | DropWaiter(g: Goroutine)

  const Initial := State(map[], [], map[])

  predicate WellFormed(s: State) {
    && (forall k :: k in s.locks ==> s.locks[k] < |s.heap|)
    && (forall g :: g in s.phase ==> s.phase[g].entry < |s.heap|)
  }

  /** A goroutine can take the step: channel operations block when they cannot proceed. */
  predicate Enabled(s: State, step: Step)
    requires WellFormed(s)
  {
    match step
    case Arrive(g, _) => g !in s.phase
    case Acquire(g) => g in s.phase && s.phase[g].Waiting? && s.heap[s.phase[g].entry].tokens > 0
    case GiveUp(g) => g in s.phase && s.phase[g].Waiting?
    case ReturnToken(g) => g in s.phase && s.phase[g].Holding? && s.heap[s.phase[g].entry].tokens < 1
    case DropWaiter(g) => g in s.phase && s.phase[g].Leaving?
  }

  function Apply(s: State, step: Step): (s': State)
    requires WellFormed(s) && Enabled(s, step)
    ensures WellFormed(s')
  {
    match step
    case Arrive(g, k) =>
      if k in s.locks then
        var e := s.locks[k];
        s.(heap := s.heap[e := s.heap[e].(waiters := s.heap[e].waiters + 1)],
           phase := s.phase[g := Waiting(k, e)])
      else
        State(s.locks[k := |s.heap|], s.heap + [Entry(1, 1)], s.phase[g := Waiting(k, |s.heap|)])
    case Acquire(g) =>
      var e := s.phase[g].entry;
      s.(heap := s.heap[e := s.heap[e].(tokens := s.heap[e].tokens - 1)],
         phase := s.phase[g := Holding(s.phase[g].key, e)])
    case GiveUp(g) =>
      s.(phase := s.phase[g := Leaving(s.phase[g].key, s.phase[g].entry)])
    case ReturnToken(g) =>
      var e := s.phase[g].entry;
      s.(heap := s.heap[e := s.heap[e].(tokens := s.heap[e].tokens + 1)],
         phase := s.phase[g := Leaving(s.phase[g].key, e)])
    case DropWaiter(g) =>
      var e := s.phase[g].entry;
      var left := s.heap[e].waiters - 1;
      State(if left == 0 then s.locks - {s.phase[g].key} else s.locks,
            s.heap[e := s.heap[e].(waiters := left)],
            s.phase - {g})
  }

  // ---------------------------------------------------------------- invariant

  ghost function Users(s: State, e: nat): set<Goroutine> {
    set g | g in s.phase && s.phase[g].entry == e
  }

  ghost function Holders(s: State, e: nat): set<Goroutine> {
    set g | g in s.phase && s.phase[g].entry == e && s.phase[g].Holding?
  }

  /** Every goroutine refers to the entry its key currently maps to. */
  ghost predicate References(s: State) {
    && WellFormed(s)
    && (forall k, k' :: k in s.locks && k' in s.locks && s.locks[k] == s.locks[k'] ==> k == k')
    && (forall g :: g in s.phase ==> s.phase[g].key in s.locks && s.locks[s.phase[g].key] == s.phase[g].entry)
  }

  ghost predicate Counts(s: State, e: nat)
    requires e < |s.heap|
  {
    && s.heap[e].waiters == |Users(s, e)| > 0
    && s.heap[e].tokens + |Holders(s, e)| == 1
    && 0 <= s.heap[e].tokens
  }

  ghost predicate Inv(s: State) {
    && References(s)
    && (forall k :: k in s.locks ==> Counts(s, s.locks[k]))
  }

  lemma SubsetCard<T>(a: set<T>, b: set<T>)
    requires a <= b
    ensures |a| <= |b|
    ensures |a| == |b| ==> a == b
  {
    assert b == a + (b - a);
  }

  /** A step moves only the goroutine that takes it. */
  lemma OthersKeepPhase(s: State, step: Step)
    requires WellFormed(s) && Enabled(s, step)
    ensures forall h :: h != step.g ==>
              (h in Apply(s, step).phase <==> h in s.phase) &&
              (h in s.phase ==> Apply(s, step).phase[h] == s.phase[h])
  {
  }

  /** g is the only goroutine with its key. */
  ghost predicate Alone(s: State, g: Goroutine)
    requires g in s.phase
  {
    forall h :: h in s.phase && s.phase[h].key == s.phase[g].key ==> h == g
  }

  lemma ReferencesPreserved(s: State, step: Step)
    requires References(s) && Enabled(s, step)
    requires step.DropWaiter? && s.heap[s.phase[step.g].entry].waiters == 1 ==> Alone(s, step.g)
    ensures References(Apply(s, step))
  {
    var s' := Apply(s, step);
    OthersKeepPhase(s, step);
    forall h | h in s'.phase
      ensures s'.phase[h].key in s'.locks && s'.locks[s'.phase[h].key] == s'.phase[h].entry
    {
      if h == step.g && !step.Arrive? {
        assert h in s.phase && s'.phase[h].key == s.phase[h].key;
      }
    }
  }

  /** A count of one means no other goroutine refers to the entry. */
  lemma LastUserIsAlone(s: State, g: Goroutine)
    requires Inv(s) && g in s.phase
    ensures s.heap[s.phase[g].entry].waiters == 1 ==> Alone(s, g)
  {
    var e := s.phase[g].entry;
    assert Counts(s, s.locks[s.phase[g].key]);
    if s.heap[e].waiters == 1 {
      assert {g} <= Users(s, e);
      SubsetCard({g}, Users(s, e));
      forall h | h in s.phase && s.phase[h].key == s.phase[g].key
        ensures h == g
      {
        assert h in Users(s, e);
      }
    }
  }

  /** How the users and holders of one entry change when only g moves. */
  lemma MembersAfter(s: State, s': State, g: Goroutine, e: nat)
    requires forall h :: h != g ==>
               (h in s'.phase <==> h in s.phase) && (h in s.phase ==> s'.phase[h] == s.phase[h])
    ensures |Users(s', e)| == |Users(s, e)| + Bit(g in Users(s', e)) - Bit(g in Users(s, e))
    ensures |Holders(s', e)| == |Holders(s, e)| + Bit(g in Holders(s', e)) - Bit(g in Holders(s, e))
  {
    CardByOne(Users(s, e), Users(s', e), g);
    CardByOne(Holders(s, e), Holders(s', e), g);
  }

  function Bit(b: bool): int {
    if b then 1 else 0
  }

  lemma CardByOne<T>(a: set<T>, b: set<T>, x: T)
    requires forall y :: y != x ==> (y in a <==> y in b)
    ensures |b| == |a| + Bit(x in b) - Bit(x in a)
  {
    assert a - {x} == b - {x};
    assert |a| == |a - {x}| + Bit(x in a);
    assert |b| == |b - {x}| + Bit(x in b);
  }

  lemma CountsPreserved(s: State, step: Step, e: nat)
    requires WellFormed(s) && Enabled(s, step)
    requires e < |Apply(s, step).heap|
    requires e < |s.heap| ==> Counts(s, e)
    requires step.DropWaiter? && step.g in s.phase && s.phase[step.g].entry == e ==> s.heap[e].waiters > 1
    ensures Counts(Apply(s, step), e)
  {
    var s' := Apply(s, step);
    OthersKeepPhase(s, step);
    MembersAfter(s, s', step.g, e);
    if e >= |s.heap| {
      NoUsersYet(s, e);
    }
  }

  lemma NoUsersYet(s: State, e: nat)
    requires WellFormed(s) && e >= |s.heap|
    ensures Users(s, e) == {} && Holders(s, e) == {}
  {
  }

  lemma InvPreserved(s: State, step: Step)
    requires Inv(s) && Enabled(s, step)
    ensures Inv(Apply(s, step))
  {
    if step.DropWaiter? {
      LastUserIsAlone(s, step.g);
    }
    ReferencesPreserved(s, step);
    forall k | k in Apply(s, step).locks
      ensures Counts(Apply(s, step), Apply(s, step).locks[k])
    {
      var e := Apply(s, step).locks[k];
      if k !in s.locks {
        assert e == |s.heap|;
      }
      CountsPreserved(s, step, e);
    }
  }

  // --------------------------------------------------------------- all runs

  /** `steps` is an interleaving that leads from s to s', every step enabled in its turn. */
  ghost predicate Reaches(s: State, steps: seq<Step>, s': State)
    decreases |steps|
  {
    WellFormed(s) &&
    if steps == [] then s' == s
    else Enabled(s, steps[0]) && Reaches(Apply(s, steps[0]), steps[1..], s')
  }

  lemma {:induction false} InvOverRuns(s: State, steps: seq<Step>, s': State)
    requires Inv(s) && Reaches(s, steps, s')
    ensures Inv(s')
    decreases |steps|
  {
    if steps != [] {
      InvPreserved(s, steps[0]);
      InvOverRuns(Apply(s, steps[0]), steps[1..], s');
    }
  }

  /** With one holder counted, any two holders coincide; with none, there are none. */
  lemma HoldersAtMostOne(s: State, e: nat)
    requires e < |s.heap| && Counts(s, e)
    ensures forall g, h :: g in Holders(s, e) && h in Holders(s, e) ==> g == h
  {
    forall g, h | g in Holders(s, e) && h in Holders(s, e)
      ensures g == h
    {
      SubsetCard({g, h}, Holders(s, e));
    }
  }

  /**
    Mutual exclusion over every interleaving of arrivals, acquisitions, timeouts
    and releases: two holders of one key are the same goroutine, even when the
    key's entry was deleted and created again in between.
   */
  lemma MutualExclusion(steps: seq<Step>, s: State, g: Goroutine, h: Goroutine)
    requires Reaches(Initial, steps, s)
    requires g in s.phase && h in s.phase && s.phase[g].Holding? && s.phase[h].Holding?
    requires s.phase[g].key == s.phase[h].key
    ensures g == h
  {
    InvOverRuns(Initial, steps, s);
    var e := s.phase[g].entry;
    assert Counts(s, s.locks[s.phase[g].key]);
    HoldersAtMostOne(s, e);
    assert g in Holders(s, e) && h in Holders(s, e);
  }

  /**
    The bookkeeping the map relies on: a key is in the map exactly while some
    goroutine waits for it, holds it or is about to drop its count; the token is
    in the channel exactly when nobody holds the key; and returning the token
    never blocks.
   */
  lemma EntriesTrackUsers(steps: seq<Step>, s: State)
    requires Reaches(Initial, steps, s)
    ensures forall k :: k in s.locks <==> exists g :: g in s.phase && s.phase[g].key == k
    ensures forall k :: k in s.locks ==>
              s.locks[k] < |s.heap| &&
              (s.heap[s.locks[k]].tokens == 1 <==> forall g :: g in s.phase && s.phase[g].key == k ==> !s.phase[g].Holding?)
    ensures forall g :: g in s.phase && s.phase[g].Holding? ==> WellFormed(s) && Enabled(s, ReturnToken(g))
  {
    InvOverRuns(Initial, steps, s);
    forall k | k in s.locks
      ensures exists g :: g in s.phase && s.phase[g].key == k
      ensures s.heap[s.locks[k]].tokens == 1 <==> forall g :: g in s.phase && s.phase[g].key == k ==> !s.phase[g].Holding?
    {
      var e := s.locks[k];
      assert Counts(s, e);
      var g :| g in Users(s, e);
      assert s.phase[g].key == k;
      assert forall h :: h in s.phase && s.phase[h].key == k && s.phase[h].Holding? ==> h in Holders(s, e);
      if Holders(s, e) != {} {
        var h :| h in Holders(s, e);
        assert s.phase[h].key == k;
      }
    }
    forall g | g in s.phase && s.phase[g].Holding?
      ensures Enabled(s, ReturnToken(g))
    {
      var e := s.phase[g].entry;
      assert Counts(s, s.locks[s.phase[g].key]);
      assert g in Holders(s, e);
    }
  }

  // ------------------------------------------------------------- the code

  /** The lock table as the services keep it; each method is one atomic step. */
  class LockTable {
    var locks: map<Key, nat>
    var heap: seq<Entry>
    var phase: map<Goroutine, Phase>

    constructor ()
      ensures Snapshot() == Initial
    {
      locks, heap, phase := map[], [], map[];
    }

    ghost function Snapshot(): State
      reads this
    {
      State(locks, heap, phase)
    }

    /** Under locksMu: fetch or create the entry and count ourselves in. */
    method Arrive(g: Goroutine, key: Key)
      requires WellFormed(Snapshot()) && Enabled(Snapshot(), Step.Arrive(g, key))
      modifies this
      ensures Snapshot() == Apply(old(Snapshot()), Step.Arrive(g, key))
    {
      var l;
      if key !in locks {
        l := |heap|;
        heap := heap + [Entry(1, 0)];
        locks := locks[key := l];
      } else {
        l := locks[key];
      }
      heap := heap[l := heap[l].(waiters := heap[l].waiters + 1)];
      phase := phase[g := Waiting(key, l)];
    }

    /**
      The select: a free token or the end of the wait makes it go on; when both are
      there, the runtime picks either.
     */
    method Select(g: Goroutine, timedOut: bool, pickTimeout: bool) returns (acquired: bool)
      requires WellFormed(Snapshot()) && Enabled(Snapshot(), Step.GiveUp(g))
               && (timedOut || Enabled(Snapshot(), Step.Acquire(g)))
      modifies this
      ensures acquired <==> old(heap[phase[g].entry].tokens) > 0 && !(timedOut && pickTimeout)
      ensures Snapshot() == Apply(old(Snapshot()), if acquired then Step.Acquire(g) else Step.GiveUp(g))
    {
      var l := phase[g].entry;
      acquired := heap[l].tokens > 0 && !(timedOut && pickTimeout);
      if acquired {
        heap := heap[l := heap[l].(tokens := heap[l].tokens - 1)];
        phase := phase[g := Holding(phase[g].key, l)];
      } else {
        phase := phase[g := Leaving(phase[g].key, l)];
      }
    }

    /** The holder puts the token back into the channel. */
    method ReturnToken(g: Goroutine)
      requires WellFormed(Snapshot()) && Enabled(Snapshot(), Step.ReturnToken(g))
      modifies this
      ensures Snapshot() == Apply(old(Snapshot()), Step.ReturnToken(g))
    {
      var l := phase[g].entry;
      heap := heap[l := heap[l].(tokens := heap[l].tokens + 1)];
      phase := phase[g := Leaving(phase[g].key, l)];
    }

    /** Under locksMu: count ourselves out and reclaim an idle entry. */
    method DropWaiter(g: Goroutine)
      requires WellFormed(Snapshot()) && Enabled(Snapshot(), Step.DropWaiter(g))
      modifies this
      ensures Snapshot() == Apply(old(Snapshot()), Step.DropWaiter(g))
    {
      var l, key := phase[g].entry, phase[g].key;
      heap := heap[l := heap[l].(waiters := heap[l].waiters - 1)];
      if heap[l].waiters == 0 {
        locks := locks - {key};
      }
      phase := phase - {g};
    }
  }
}
