/**
  One sync pass over the pending rows of a subscription, run without
  interference: what syncNodes does to the rows and to the VPN panels.
 */
module SyncPass {
  import opened Options
  import opened Bindings
  import opened PlanReconcile

  datatype Op = Create | Update | Delete | ReadProfile

  /** The network's part in a panel call: the panel answers, or the call fails. */
  datatype Reply = Works | Fails(tookEffect: bool, retryable: bool)

  type Network = (NodeId, Op) -> Reply

  /**
    What the pass knows besides the rows: the startup registry (node to "its type
    is supported"), the nodes with a provisioning client, those whose renew
    profile the update path reads (a readable panel and a limited plan), and the
    node table (node to is_active).
   */
  datatype Env = Env(registry: map<NodeId, bool>, clients: set<NodeId>, readers: set<NodeId>,
                     table: map<NodeId, bool>, now: Time)

  /** A row that is gone is None; `held` says whether the panel has the client. */
  datatype Outcome = Outcome(row: Option<Row>, held: bool, calls: seq<Op>)

  predicate Live(env: Env, n: NodeId) {
    n in env.table && env.table[n]
  }

  predicate Runnable(env: Env, n: NodeId) {
    n in env.registry && env.registry[n] && n in env.clients
  }

  // ----------------------------------------------------------- specification

  function Retry(env: Env, row: Row, held: bool, calls: seq<Op>, retryable: bool): Outcome {
    Outcome(Some(Failed(row, env.now, retryable)), held, calls)
  }

  function Remove(env: Env, net: Network, n: NodeId, row: Row, held: bool): Outcome {
    if !Live(env, n) then Outcome(None, held, [])
    else if n !in env.clients then Retry(env, row, held, [], true)
    else match net(n, Delete)
      case Works => Outcome(None, false, [Delete])
      case Fails(effect, retryable) => Retry(env, row, held && !effect, [Delete], retryable)
  }

  function Add(env: Env, net: Network, n: NodeId, row: Row, held: bool): Outcome {
    if !Runnable(env, n) then Retry(env, row, held, [], true)
    else match net(n, Create)
      case Fails(effect, retryable) => Retry(env, row, held || effect, [Create], retryable)
      case Works =>
        if !held then Outcome(Some(Fresh(Active)), true, [Create])
        else match net(n, Update)
          case Works => Outcome(Some(Fresh(Active)), true, [Create, Update])
          case Fails(_, retryable) => Retry(env, row, true, [Create, Update], retryable)
  }

  function Renew(env: Env, net: Network, n: NodeId, row: Row, held: bool): Outcome {
    if !Runnable(env, n) then Retry(env, row, held, [], true)
    else
      var read := if n in env.readers then [ReadProfile] else [];
      if n in env.readers && net(n, ReadProfile).Fails? then
        Retry(env, row, held, read, net(n, ReadProfile).retryable)
      else if n in env.readers && !held then Outcome(Some(Fresh(PendingAdd)), held, read)
      else match net(n, Update)
        case Fails(_, retryable) => Retry(env, row, held, read + [Update], retryable)
        case Works => Outcome(Some(Fresh(if held then Active else PendingAdd)), held, read + [Update])
  }

  /** One row of the pass. */
  function SyncRow(env: Env, net: Network, revoked: bool, n: NodeId, row: Row, held: bool): Outcome {
    match row.status
    case Active => Outcome(Some(row), held, [])
    case PendingRemove => Remove(env, net, n, row, held)
    case PendingAdd => if revoked then Remove(env, net, n, Fresh(PendingRemove), held) else Add(env, net, n, row, held)
    case PendingUpdate => if revoked then Remove(env, net, n, Fresh(PendingRemove), held) else Renew(env, net, n, row, held)
  }

  datatype World = World(rows: Rows, held: set<NodeId>)

  /** The pass carried out for the nodes in `done`; rows that are not due are skipped. */
  function PassOn(env: Env, net: Network, revoked: bool, w: World, done: set<NodeId>): World {
    World(
      map n | n in w.rows && (n in done && Due(w.rows[n], env.now) ==> SyncRow(env, net, revoked, n, w.rows[n], n in w.held).row.Some?) ::
        if n in done && Due(w.rows[n], env.now) then SyncRow(env, net, revoked, n, w.rows[n], n in w.held).row.value else w.rows[n],
      set n | n in w.held + w.rows.Keys &&
              (if n in w.rows && n in done && Due(w.rows[n], env.now)
               then SyncRow(env, net, revoked, n, w.rows[n], n in w.held).held else n in w.held))
  }

  function Pass(env: Env, net: Network, revoked: bool, w: World): World {
    PassOn(env, net, revoked, w, w.rows.Keys)
  }

  function Settle(w: World, n: NodeId, o: Outcome): World {
    World(if o.row.Some? then w.rows[n := o.row.value] else w.rows - {n},
          if o.held then w.held + {n} else w.held - {n})
  }

  lemma PassOnNothingDue(env: Env, net: Network, revoked: bool, w: World, done: set<NodeId>)
    requires forall n :: n in done && n in w.rows ==> !Due(w.rows[n], env.now)
    ensures PassOn(env, net, revoked, w, done) == w
  {
  }

  lemma PassOnNext(env: Env, net: Network, revoked: bool, w: World, done: set<NodeId>, n: NodeId)
    requires n in w.rows && Due(w.rows[n], env.now) && n !in done
    ensures var mid := PassOn(env, net, revoked, w, done);
            && n in mid.rows && mid.rows[n] == w.rows[n]
            && (n in mid.held <==> n in w.held)
            && PassOn(env, net, revoked, w, done + {n}) == Settle(mid, n, SyncRow(env, net, revoked, n, w.rows[n], n in w.held))
  {
    var mid := PassOn(env, net, revoked, w, done);
    var o := SyncRow(env, net, revoked, n, w.rows[n], n in w.held);
    var next := PassOn(env, net, revoked, w, done + {n});
    assert next.rows == Settle(mid, n, o).rows;
    assert next.held == Settle(mid, n, o).held;
  }

  // ---------------------------------------------------------------- the code

  class SyncService {
    var rows: Rows
    var held: set<NodeId>
    var calls: seq<(NodeId, Op)>
    const env: Env
    const net: Network

    constructor (rows: Rows, held: set<NodeId>, env: Env, net: Network)
      ensures this.rows == rows && this.held == held && this.env == env && this.net == net && calls == []
    {
      this.rows, this.held, this.env, this.net, calls := rows, held, env, net, [];
    }

    ghost function Snapshot(): World
      reads this
    {
      World(rows, held)
    }

    /** The state is `before` with the row, the client and the calls of n as the outcome says. */
    twostate predicate Settled(n: NodeId, o: Outcome)
      reads this
    {
      && rows == (if o.row.Some? then old(rows)[n := o.row.value] else old(rows) - {n})
      && held == (if o.held then old(held) + {n} else old(held) - {n})
      && calls == old(calls) + seq(|o.calls|, i requires 0 <= i < |o.calls| => (n, o.calls[i]))
    }

    /** A panel call: log it, apply its effect on the client, return the reply. */
    method Call(n: NodeId, op: Op) returns (reply: Reply)
      modifies `calls, `held
      ensures reply == net(n, op)
      ensures calls == old(calls) + [(n, op)]
      ensures held == match op
        case Create => if reply.Works? || reply.tookEffect then old(held) + {n} else old(held)
        case Delete => if reply.Works? || reply.tookEffect then old(held) - {n} else old(held)
        case _ => old(held)
    {
      reply := net(n, op);
      calls := calls + [(n, op)];
      if reply.Works? || reply.tookEffect {
        match op {
          case Create => held := held + {n};
          case Delete => held := held - {n};
          case _ =>
        }
      }
    }

    method HandleSyncError(n: NodeId, sn: Row, retryable: bool)
      requires n in rows && rows[n].status == sn.status
      modifies `rows
      ensures rows == old(rows)[n := Failed(sn, env.now, retryable)]
    {
      rows := rows[n := Failed(sn, env.now, retryable)];
    }

    method ProcessPendingRemove(n: NodeId, sn: Row)
      requires n in rows && rows[n] == sn && sn.status.PendingRemove?
      modifies this
      ensures Settled(n, Remove(env, net, n, sn, n in old(held)))
    {
      if n !in env.table || !env.table[n] {
        rows := rows - {n};
        return;
      }
      if n !in env.clients {
        HandleSyncError(n, sn, true);
        return;
      }
      var reply := Call(n, Delete);
      if reply.Fails? {
        HandleSyncError(n, sn, reply.retryable);
      } else {
        rows := rows - {n};
      }
    }

    method ProcessPendingAdd(n: NodeId, sn: Row)
      requires n in rows && rows[n] == sn && sn.status.PendingAdd? && n in env.registry && env.registry[n]
      modifies this
      ensures Settled(n, Add(env, net, n, sn, n in old(held)))
    {
      if n !in env.clients {
        HandleSyncError(n, sn, true);
        return;
      }
      var known := n in held;
      var reply := Call(n, Create);
      if reply.Fails? {
        HandleSyncError(n, sn, reply.retryable);
        return;
      }
      if known {
        reply := Call(n, Update);
        if reply.Fails? {
          HandleSyncError(n, sn, reply.retryable);
          return;
        }
      }
      rows := rows[n := Fresh(Active)];
    }

    method ProcessPendingUpdate(n: NodeId, sn: Row)
      requires n in rows && rows[n] == sn && sn.status.PendingUpdate? && n in env.registry && env.registry[n]
      modifies this
      ensures Settled(n, Renew(env, net, n, sn, n in old(held)))
    {
      if n !in env.clients {
        HandleSyncError(n, sn, true);
        return;
      }
      var reply;
      if n in env.readers {
        reply := Call(n, ReadProfile);
        if reply.Fails? {
          HandleSyncError(n, sn, reply.retryable);
          return;
        }
        if n !in held {
          rows := rows[n := Fresh(PendingAdd)];
          return;
        }
      }
      reply := Call(n, Update);
      if reply.Fails? {
        HandleSyncError(n, sn, reply.retryable);
      } else if n !in held {
        rows := rows[n := Fresh(PendingAdd)];
      } else {
        rows := rows[n := Fresh(Active)];
      }
    }

    /** One iteration of syncNodes. */
    method SyncNode(n: NodeId, revoked: bool)
      requires n in rows && !rows[n].status.Active?
      modifies this
      ensures Settled(n, SyncRow(env, net, revoked, n, old(rows)[n], n in old(held)))
    {
      var sn := rows[n];
      if revoked && sn.status in {PendingAdd, PendingUpdate} {
        sn := Fresh(PendingRemove);
        rows := rows[n := sn];
      }
      if sn.status.PendingRemove? {
        ProcessPendingRemove(n, sn);
        return;
      }
      if n !in env.registry || !env.registry[n] {
        HandleSyncError(n, sn, true);
        return;
      }
      match sn.status {
        case PendingAdd => ProcessPendingAdd(n, sn);
        case PendingUpdate => ProcessPendingUpdate(n, sn);
      }
    }

    /** syncNodes over the rows GetPendingBySubscriptionID returned, in any order. */
    method SyncNodes(revoked: bool)
      modifies this
      ensures Snapshot() == Pass(env, net, revoked, old(Snapshot()))
      ensures |old(calls)| <= |calls|
      ensures revoked ==> forall i :: |old(calls)| <= i < |calls| ==> calls[i].1 == Delete
    {
      ghost var before := Snapshot();
      var pending := set n | n in rows && Due(rows[n], env.now);
      ghost var done := rows.Keys - pending;
      PassOnNothingDue(env, net, revoked, before, done);
      while pending != {}
        invariant forall n :: n in pending ==> n in before.rows && Due(before.rows[n], env.now)
        invariant done == before.rows.Keys - pending
        invariant Snapshot() == PassOn(env, net, revoked, before, done)
        invariant |old(calls)| <= |calls|
        invariant revoked ==> forall i :: |old(calls)| <= i < |calls| ==> calls[i].1 == Delete
        decreases pending
      {
        var n :| n in pending;
        PassOnNext(env, net, revoked, before, done, n);
        SyncNode(n, revoked);
        if revoked {
          RevokedOnlyDeletes(env, net, n, before.rows[n], n in before.held);
        }
        pending, done := pending - {n}, done + {n};
      }
      assert done == before.rows.Keys;
    }
  }

  /** The world after the delete flow queued every binding and ran its pass. */
  function Deprovisioned(env: Env, net: Network, w: World): World {
    Pass(env, net, true, World(AllPendingRemove(w.rows), w.held))
  }

  /**
    revokeAndDeprovisionThenDelete without interference: queue every binding for
    removal, run one pass, and delete the subscription only if no binding is left.
    A queueing write that fails ends the flow before any panel is called.
   */
  method RevokeDeprovisionDelete(s: SyncService, broken: set<NodeId>) returns (deleted: bool)
    modifies s
    ensures broken !! old(s.rows).Keys ==>
              s.Snapshot() == Deprovisioned(s.env, s.net, old(s.Snapshot())) && (deleted <==> s.rows == map[])
    ensures !(broken !! old(s.rows).Keys) ==>
              && !deleted && s.calls == old(s.calls) && s.held == old(s.held)
              && exists done: set<NodeId> :: done <= old(s.rows).Keys && done !! broken && s.rows == Queued(old(s.rows), done)
  {
    var store := new BindingStore(s.rows, broken);
    var queued := store.MarkAllForRemoval();
    s.rows := store.rows;
    if !queued {
      return false;
    }
    s.SyncNodes(true);
    deleted := s.rows == map[];
  }

  // ------------------------------------------------- what the calls must have been

  /** The client after the given calls: what worked, and what took effect although it failed. */
  function HeldAfter(net: Network, n: NodeId, held: bool, calls: seq<Op>): bool {
    if calls == [] then held
    else
      var (before, op) := (HeldAfter(net, n, held, calls[..|calls| - 1]), calls[|calls| - 1]);
      if net(n, op).Fails? && !net(n, op).tookEffect then before
      else match op
        case Create => true
        case Delete => false
        case Update => before
        case ReadProfile => before
  }

  /** The calls a pending row needs, in order, as far as each of them works. */
  function Wanted(env: Env, n: NodeId, status: Status, held: bool): seq<Op> {
    match status
    case Active => []
    case PendingRemove => if Live(env, n) && n in env.clients then [Delete] else []
    case PendingAdd => if !Runnable(env, n) then [] else if held then [Create, Update] else [Create]
    case PendingUpdate =>
      if !Runnable(env, n) then []
      else if n !in env.readers then [Update]
      else if held then [ReadProfile, Update] else [ReadProfile]
  }

  /** Nobody can be asked about the node, although somebody has to be. */
  predicate Unavailable(env: Env, n: NodeId, status: Status) {
    match status
    case Active => false
    case PendingRemove => Live(env, n) && n !in env.clients
    case PendingAdd => !Runnable(env, n)
    case PendingUpdate => !Runnable(env, n)
  }

  /** What a row is worked on as: a revoked subscription only removes. */
  function Worked(revoked: bool, row: Row): Row {
    if revoked && row.status in {PendingAdd, PendingUpdate} then Fresh(PendingRemove) else row
  }

  predicate AllWork(net: Network, n: NodeId, calls: seq<Op>) {
    forall i :: 0 <= i < |calls| ==> net(n, calls[i]).Works?
  }

  /** Where a row ends whose calls all worked. */
  function Done(status: Status, held: bool): Option<Row> {
    match status
    case Active => Some(Fresh(Active))
    case PendingRemove => None
    case PendingAdd => Some(Fresh(Active))
    case PendingUpdate => Some(Fresh(if held then Active else PendingAdd))
  }

  /** The outcome of a row worked on as `work` is what its calls made of it. */
  predicate ToldByCalls(env: Env, net: Network, n: NodeId, work: Row, held: bool, o: Outcome) {
    var wanted := Wanted(env, n, work.status, held);
    && o.calls <= wanted
    && o.held == HeldAfter(net, n, held, o.calls)
    && (forall i :: 0 <= i < |o.calls| - 1 ==> net(n, o.calls[i]).Works?)
    && if Unavailable(env, n, work.status) then o.calls == [] && o.row == Some(Failed(work, env.now, true))
       else if AllWork(net, n, wanted) then o.calls == wanted && o.row == Done(work.status, held)
       else
         && o.calls != [] && net(n, o.calls[|o.calls| - 1]).Fails?
         && o.row == Some(Failed(work, env.now, net(n, o.calls[|o.calls| - 1]).retryable))
  }

  lemma OneCall(net: Network, n: NodeId, held: bool, a: Op)
    ensures HeldAfter(net, n, held, []) == held
    ensures HeldAfter(net, n, held, [a]) ==
              if net(n, a).Fails? && !net(n, a).tookEffect then held else if a.Create? then true else if a.Delete? then false else held
    ensures AllWork(net, n, [a]) <==> net(n, a).Works?
  {
    assert [a][..0] == [];
    assert [a][0] == a;
  }

  lemma TwoCalls(net: Network, n: NodeId, held: bool, a: Op, b: Op)
    requires b.Update?
    ensures HeldAfter(net, n, held, [a, b]) == HeldAfter(net, n, held, [a])
    ensures AllWork(net, n, [a, b]) <==> net(n, a).Works? && net(n, b).Works?
    ensures [a] <= [a, b]
  {
    assert [a, b][..1] == [a];
    assert [a, b][0] == a && [a, b][1] == b;
  }

  lemma RemoveTold(env: Env, net: Network, n: NodeId, row: Row, held: bool)
    requires row.status.PendingRemove?
    ensures ToldByCalls(env, net, n, row, held, Remove(env, net, n, row, held))
  {
    OneCall(net, n, held, Delete);
  }

  lemma AddTold(env: Env, net: Network, n: NodeId, row: Row, held: bool)
    requires row.status.PendingAdd?
    ensures ToldByCalls(env, net, n, row, held, Add(env, net, n, row, held))
  {
    OneCall(net, n, held, Create);
    TwoCalls(net, n, held, Create, Update);
  }

  lemma RenewTold(env: Env, net: Network, n: NodeId, row: Row, held: bool)
    requires row.status.PendingUpdate?
    ensures ToldByCalls(env, net, n, row, held, Renew(env, net, n, row, held))
  {
    OneCall(net, n, held, ReadProfile);
    OneCall(net, n, held, Update);
    TwoCalls(net, n, held, ReadProfile, Update);
  }

  /**
    One row, told by its calls.  The calls are the wanted ones, in order, up to the
    first that fails.  The row is done exactly when none of them failed and the node
    was there to be asked; otherwise it is the failure of the row it was worked on
    as, retryable as the failed call says, or because nobody could be asked.  The
    client is what the calls made of it.
   */
  lemma RowToldByCalls(env: Env, net: Network, revoked: bool, n: NodeId, row: Row, held: bool)
    requires !row.status.Active?
    ensures ToldByCalls(env, net, n, Worked(revoked, row), held, SyncRow(env, net, revoked, n, row, held))
  {
    match Worked(revoked, row).status
    case PendingRemove => RemoveTold(env, net, n, Worked(revoked, row), held);
    case PendingAdd => AddTold(env, net, n, row, held);
    case PendingUpdate => RenewTold(env, net, n, row, held);
  }

  /** An active row has its client's limits brought up to date: by a create if there was none, else by an update, and it worked. */
  lemma ActiveIsUpToDate(env: Env, net: Network, revoked: bool, n: NodeId, row: Row, held: bool)
    requires !row.status.Active? && SyncRow(env, net, revoked, n, row, held).row == Some(Fresh(Active))
    ensures var calls := SyncRow(env, net, revoked, n, row, held).calls;
            && !revoked && calls != []
            && calls[|calls| - 1] == (if held then Update else Create) && net(n, calls[|calls| - 1]).Works?
  {
    RowToldByCalls(env, net, revoked, n, row, held);
  }

  // -------------------------------------------------------------- properties

  /** A revoked subscription: no create or update call, and the row is queued for removal or gone. */
  lemma RevokedOnlyDeletes(env: Env, net: Network, n: NodeId, row: Row, held: bool)
    ensures forall i :: 0 <= i < |SyncRow(env, net, true, n, row, held).calls| ==>
              SyncRow(env, net, true, n, row, held).calls[i] == Delete
    ensures !row.status.Active? ==>
              var o := SyncRow(env, net, true, n, row, held);
              o.row.None? || o.row.value.status.PendingRemove?
    ensures SyncRow(env, net, true, n, row, held).held ==> held
  {
  }

  /** A run of passes and background applications of a subscription that stays revoked. */
  datatype RevokedStep =
    | SyncPassStep(env: Env, net: Network)
    | ApplyStep(target: set<NodeId>, broken: set<NodeId>)

  function AfterRevoked(w: World, steps: seq<RevokedStep>): World
    decreases |steps|
  {
    if steps == [] then w
    else
      var w' := match steps[0]
        case SyncPassStep(env, net) => Pass(env, net, true, w)
        case ApplyStep(target, broken) => World(Background(w.rows, target, broken, true), w.held);
      AfterRevoked(w', steps[1..])
  }

  /** Over such a run neither the bindings nor the clients on the panels ever grow. */
  lemma {:induction false} RevokedOnlyShrinks(w: World, steps: seq<RevokedStep>)
    ensures AfterRevoked(w, steps).rows.Keys <= w.rows.Keys
    ensures AfterRevoked(w, steps).held <= w.held
    decreases |steps|
  {
    if steps != [] {
      match steps[0]
      case SyncPassStep(env, net) =>
        RevokedPassShrinks(env, net, w);
        RevokedOnlyShrinks(Pass(env, net, true, w), steps[1..]);
      case ApplyStep(target, broken) =>
        RevokedCreatesNothing(w.rows, target, broken);
        RevokedOnlyShrinks(World(Background(w.rows, target, broken, true), w.held), steps[1..]);
    }
  }

  lemma RevokedPassShrinks(env: Env, net: Network, w: World)
    ensures Pass(env, net, true, w).rows.Keys <= w.rows.Keys
    ensures Pass(env, net, true, w).held <= w.held
  {
    forall n | n in Pass(env, net, true, w).held
      ensures n in w.held
    {
      if n in w.rows {
        RevokedOnlyDeletes(env, net, n, w.rows[n], n in w.held);
      }
    }
  }

  /** The panel invariant for one subscription at rest. */
  ghost predicate PanelInvariant(env: Env, w: World) {
    && (forall n :: n in w.rows && w.rows[n].status in {Active, PendingUpdate} ==> n in w.held)
    && (forall n :: n in w.held && Live(env, n) ==> n in w.rows)
  }

  /** Every target node can be served, and every live bound node has a client to delete with. */
  ghost predicate Servable(env: Env, rows: Rows, target: set<NodeId>) {
    && (forall n :: n in target ==> Live(env, n) && Runnable(env, n))
    && (forall n :: n in rows && Live(env, n) ==> n in env.clients)
  }

  /**
    Convergence: for a subscription that is not revoked, with every row due and
    every panel call answered, a plan application and one sync pass bind exactly
    the target nodes, all active, and leave the client on exactly the target
    panels among the live nodes.
   */
  lemma Converges(env: Env, net: Network, w: World, target: set<NodeId>)
    requires PanelInvariant(env, w) && Servable(env, w.rows, target)
    requires forall n :: n in w.rows && !w.rows[n].status.Active? ==> Due(w.rows[n], env.now)
    requires forall n, op :: net(n, op).Works?
    ensures var end := Pass(env, net, false, World(Applied(w.rows, target), w.held));
            && end.rows == (map n | n in target :: Fresh(Active))
            && (forall n :: Live(env, n) ==> (n in end.held <==> n in target))
            && PanelInvariant(env, end)
  {
    var mid := World(Applied(w.rows, target), w.held);
    AppliedOutcome(w.rows, target);
    forall n | n in mid.rows
      ensures ReachesTarget(env, net, mid, target, n)
    {
      ConvergesAt(env, net, w, target, n);
    }
    AllReachTarget(env, net, mid, target);
  }

  /** The row of node n is due, and its outcome is what the target asks for. */
  ghost predicate ReachesTarget(env: Env, net: Network, w: World, target: set<NodeId>, n: NodeId)
    requires n in w.rows
  {
    && Due(w.rows[n], env.now)
    && var o := SyncRow(env, net, false, n, w.rows[n], n in w.held);
       if n in target then o.row == Some(Fresh(Active)) && o.held
       else o.row.None? && (Live(env, n) ==> !o.held)
  }

  lemma AllReachTarget(env: Env, net: Network, w: World, target: set<NodeId>)
    requires forall n :: n in w.rows ==> ReachesTarget(env, net, w, target, n)
    requires target <= w.rows.Keys && forall n :: n in w.held && Live(env, n) ==> n in w.rows
    ensures var end := Pass(env, net, false, w);
            && end.rows == (map n | n in target :: Fresh(Active))
            && (forall n :: n in w.rows ==> (n in target ==> n in end.held) && (n !in target && Live(env, n) ==> n !in end.held))
            && (forall n :: n in end.held && Live(env, n) ==> n in target)
  {
    assert Pass(env, net, false, w).rows == map n | n in target :: Fresh(Active);
  }

  lemma ConvergesAt(env: Env, net: Network, w: World, target: set<NodeId>, n: NodeId)
    requires PanelInvariant(env, w) && Servable(env, w.rows, target)
    requires forall n :: n in w.rows && !w.rows[n].status.Active? ==> Due(w.rows[n], env.now)
    requires forall n, op :: net(n, op).Works?
    requires n in Applied(w.rows, target)
    ensures ReachesTarget(env, net, World(Applied(w.rows, target), w.held), target, n)
  {
    var row := Applied(w.rows, target)[n];
    AppliedOutcome(w.rows, target);
    if n in target {
      assert row.status.PendingUpdate? ==> w.rows[n].status in {Active, PendingUpdate};
    } else {
      assert n in w.rows;
    }
  }

  /** The pass keeps the panel invariant whatever the network does. */
  lemma PassKeepsPanelInvariant(env: Env, net: Network, revoked: bool, w: World)
    requires PanelInvariant(env, w)
    ensures PanelInvariant(env, Pass(env, net, revoked, w))
  {
    forall n | n in w.rows && Due(w.rows[n], env.now)
      ensures var o := SyncRow(env, net, revoked, n, w.rows[n], n in w.held);
              && (o.row.Some? && o.row.value.status in {Active, PendingUpdate} ==> o.held)
              && (o.row.None? && Live(env, n) ==> !o.held)
    {
    }
  }

  /**
    The delete flow deletes exactly when every live panel could be asked and
    answered; it then leaves no client on a live node, and otherwise every
    binding left waits for removal.
   */
  lemma DeleteFlow(env: Env, net: Network, w: World)
    requires PanelInvariant(env, w)
    ensures var end := Deprovisioned(env, net, w);
            && PanelInvariant(env, end)
            && (end.rows == map[] ==> forall n :: Live(env, n) ==> n !in end.held)
            && (forall n :: n in end.rows ==> end.rows[n].status.PendingRemove?)
            && (end.rows == map[] <==>
                  forall n :: n in w.rows && Live(env, n) ==> n in env.clients && net(n, Delete).Works?)
  {
    var queued := World(AllPendingRemove(w.rows), w.held);
    var end := Deprovisioned(env, net, w);
    PassKeepsPanelInvariant(env, net, true, queued);
    assert forall n :: n in queued.rows ==> Due(queued.rows[n], env.now);
    assert forall n :: n in end.rows <==> n in w.rows && Live(env, n) && !(n in env.clients && net(n, Delete).Works?);
  }

  /** A flow that could not queue everything keeps the panel invariant, and trying again does what it would have done. */
  lemma AbortedFlowCanBeRetried(env: Env, net: Network, w: World, done: set<NodeId>)
    requires PanelInvariant(env, w)
    ensures PanelInvariant(env, World(Queued(w.rows, done), w.held))
    ensures Deprovisioned(env, net, World(Queued(w.rows, done), w.held)) == Deprovisioned(env, net, w)
  {
    assert AllPendingRemove(Queued(w.rows, done)) == AllPendingRemove(w.rows);
  }
}
