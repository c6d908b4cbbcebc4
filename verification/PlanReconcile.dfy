/**
  The transition table applied on every plan change, in its two entry points:
  the background pass under the subscription lock and the payment transaction.
 */
module PlanReconcile {
  import opened Options
  import opened Bindings

  /** A node row of the plan, as loaded with its is_active flag. */
  datatype Node = Node(id: NodeId, isActive: bool)

  function TargetSet(nodes: seq<Node>): (target: set<NodeId>)
    ensures forall i :: 0 <= i < |nodes| && nodes[i].isActive ==> nodes[i].id in target
    ensures forall n :: n in target ==> exists i :: 0 <= i < |nodes| && nodes[i].isActive && nodes[i].id == n
  {
    set i | 0 <= i < |nodes| && nodes[i].isActive :: nodes[i].id
  }

  // ----------------------------------------------------------- specification

  /** The row a node ends with; its key is in `rows` or in `target`. */
  function ReconciledRow(rows: Rows, target: set<NodeId>, n: NodeId): Row
    requires n in rows || n in target
  {
    if n in target then
      if n in rows && !rows[n].status.PendingRemove? then rows[n] else Fresh(PendingAdd)
    else if rows[n].status.PendingRemove? then rows[n]
    else Fresh(PendingRemove)
  }

  function Reconciled(rows: Rows, target: set<NodeId>): Rows {
    map n | n in rows.Keys + target :: ReconciledRow(rows, target, n)
  }

  /** MarkActiveNodesPendingUpdate: one conditional UPDATE. */
  function Marked(rows: Rows, target: set<NodeId>): Rows {
    map n | n in rows :: if n in target && rows[n].status.Active? then Fresh(PendingUpdate) else rows[n]
  }

  /** Mark step followed by the table: what one plan application computes. */
  function Applied(rows: Rows, target: set<NodeId>): Rows {
    Reconciled(Marked(rows, target), target)
  }

  /** The table has to write the row of n. */
  predicate NeedsWrite(rows: Rows, target: set<NodeId>, n: NodeId) {
    if n in target then n !in rows || rows[n].status.PendingRemove?
    else n in rows && !rows[n].status.PendingRemove?
  }

  /** The table carried out for the nodes in `done`, writes to `broken` nodes having failed. */
  function Partial(rows: Rows, target: set<NodeId>, done: set<NodeId>, broken: set<NodeId>): Rows {
    map n | n in rows.Keys + (target * done - broken) ::
      if n in done && n !in broken then ReconciledRow(rows, target, n) else rows[n]
  }

  lemma TargetSetNext(nodes: seq<Node>, i: nat)
    requires i < |nodes|
    ensures TargetSet(nodes[..i + 1]) == TargetSet(nodes[..i]) + (if nodes[i].isActive then {nodes[i].id} else {})
    ensures nodes[i].isActive ==> nodes[i].id in TargetSet(nodes)
  {
    assert nodes[..i + 1] == nodes[..i] + [nodes[i]];
    forall n | n in TargetSet(nodes[..i + 1])
      ensures n in TargetSet(nodes[..i]) || (nodes[i].isActive && n == nodes[i].id)
    {
      var j :| 0 <= j < i + 1 && nodes[..i + 1][j].isActive && nodes[..i + 1][j].id == n;
      if j < i {
        assert nodes[..i][j] == nodes[j];
      }
    }
    forall n | n in TargetSet(nodes[..i])
      ensures n in TargetSet(nodes[..i + 1])
    {
      var j :| 0 <= j < i && nodes[..i][j].isActive && nodes[..i][j].id == n;
      assert nodes[..i + 1][j] == nodes[j];
    }
    assert nodes[..i + 1][i] == nodes[i];
  }

  lemma TargetSetGrows(nodes: seq<Node>, i: nat)
    requires i <= |nodes|
    ensures TargetSet(nodes[..i]) <= TargetSet(nodes)
  {
    forall n | n in TargetSet(nodes[..i])
      ensures n in TargetSet(nodes)
    {
      var j :| 0 <= j < i && nodes[..i][j].isActive && nodes[..i][j].id == n;
      assert nodes[j].isActive && nodes[j].id == n;
    }
  }

  /** Rows already pending removal outside the target count as done from the start. */
  lemma AlreadyRemoved(rows: Rows, target: set<NodeId>, done: set<NodeId>)
    requires forall n :: n in done && n !in target ==> n in rows && rows[n].status.PendingRemove?
    requires target <= done
    ensures forall broken :: Partial(rows, target, done, broken) == Partial(rows, target, target, broken)
    ensures forall n :: n in done && n !in target ==> !NeedsWrite(rows, target, n)
  {
    forall broken
      ensures Partial(rows, target, done, broken) == Partial(rows, target, target, broken)
    {
      assert target * done - broken == target * target - broken;
    }
  }

  // ---------------------------------------------------------------- the code

  /** The store seam: the rows of one subscription and the statements that can fail. */
  class BindingStore {
    var rows: Rows
    const broken: set<NodeId>  // nodes whose single-row writes fail

    constructor (rows: Rows, broken: set<NodeId>)
      ensures this.rows == rows && this.broken == broken
    {
      this.rows, this.broken := rows, broken;
    }

    method SetNodeStatus(n: NodeId, status: Status) returns (ok: bool)
      requires n in rows
      modifies this
      ensures ok <==> n !in broken
      ensures rows == if ok then old(rows)[n := Fresh(status)] else old(rows)
    {
      ok := n !in broken;
      if ok {
        rows := rows[n := Fresh(status)];
      }
    }

    method UpsertPendingAdd(n: NodeId) returns (ok: bool)
      modifies this
      ensures ok <==> n !in broken
      ensures rows == if ok then old(rows)[n := Fresh(PendingAdd)] else old(rows)
    {
      ok := n !in broken;
      if ok {
        rows := rows[n := Fresh(PendingAdd)];
      }
    }

    method MarkActiveNodesPendingUpdate(target: set<NodeId>)
      modifies this
      ensures rows == Marked(old(rows), target)
    {
      if target != {} {
        rows := map n | n in rows :: if n in target && rows[n].status.Active? then Fresh(PendingUpdate) else rows[n];
      }
    }

    /** Rows so far: the table is carried out for `done`, and `failed` writes were lost. */
    ghost predicate Progress(before: Rows, target: set<NodeId>, done: set<NodeId>, failed: set<NodeId>)
      reads this
    {
      && rows == Partial(before, target, done, broken)
      && failed == set n | n in broken && n in done && NeedsWrite(before, target, n)
    }

    /** The table is carried out for some of the nodes and for no other. */
    ghost predicate Halfway(before: Rows, target: set<NodeId>)
      reads this
    {
      exists done :: done <= target + before.Keys && rows == Partial(before, target, done, broken)
    }

    /** ADD path for one target node, against the rows loaded at the start. */
    method AddTarget(n: NodeId, loaded: Rows, ghost target: set<NodeId>, ghost done: set<NodeId>) returns (ok: bool)
      requires n in target && rows == Partial(loaded, target, done, broken)
      modifies this
      ensures rows == Partial(loaded, target, done + {n}, broken)
      ensures ok <==> !(n in broken && NeedsWrite(loaded, target, n))
    {
      ok := true;
      if n !in loaded {
        ok := UpsertPendingAdd(n);
      } else if loaded[n].status.PendingRemove? {
        ok := SetNodeStatus(n, PendingAdd);
      }
    }

    /** REMOVE path for one row outside the target. */
    method RemoveRow(n: NodeId, loaded: Rows, ghost target: set<NodeId>, ghost done: set<NodeId>) returns (ok: bool)
      requires n in loaded && n !in target && !loaded[n].status.PendingRemove?
      requires rows == Partial(loaded, target, done, broken)
      modifies this
      ensures rows == Partial(loaded, target, done + {n}, broken)
      ensures ok <==> !(n in broken && NeedsWrite(loaded, target, n))
    {
      ok := SetNodeStatus(n, PendingRemove);
    }

    method AddPath(nodes: seq<Node>, loaded: Rows, failFast: bool) returns (failed: set<NodeId>, stopped: bool)
      requires rows == loaded
      modifies this
      ensures stopped ==> failFast && exists n :: n in broken && NeedsWrite(loaded, TargetSet(nodes), n)
      ensures stopped ==> Halfway(loaded, TargetSet(nodes))
      ensures !stopped ==> Progress(loaded, TargetSet(nodes), TargetSet(nodes), failed)
      ensures !stopped && failFast ==> failed == {}
    {
      ghost var target := TargetSet(nodes);
      failed, stopped := {}, false;
      assert rows == Partial(loaded, target, {}, broken);
      for i := 0 to |nodes|
        invariant Progress(loaded, target, TargetSet(nodes[..i]), failed)
        invariant failFast ==> failed == {}
      {
        var n := nodes[i].id;
        TargetSetNext(nodes, i);
        if nodes[i].isActive {
          var ok := AddTarget(n, loaded, target, TargetSet(nodes[..i]));
          if !ok && failFast {
            TargetSetGrows(nodes, i);
            assert TargetSet(nodes[..i]) + {n} <= target;
            stopped := true;
            return;
          }
          failed := if ok then failed else failed + {n};
        }
      }
      assert nodes[..|nodes|] == nodes;
    }

    method RemovePath(nodes: seq<Node>, loaded: Rows, failFast: bool, failedBefore: set<NodeId>)
      returns (failed: set<NodeId>, stopped: bool)
      requires Progress(loaded, TargetSet(nodes), TargetSet(nodes), failedBefore)
      requires failFast ==> failedBefore == {}
      modifies this
      ensures stopped ==> failFast && exists n :: n in broken && NeedsWrite(loaded, TargetSet(nodes), n)
      ensures stopped ==> Halfway(loaded, TargetSet(nodes))
      ensures !stopped ==> Progress(loaded, TargetSet(nodes), TargetSet(nodes) + loaded.Keys, failed)
      ensures !stopped && failFast ==> failed == {}
    {
      var target := TargetSet(nodes);
      failed, stopped := failedBefore, false;
      var rest := set n | n in loaded && n !in target && !loaded[n].status.PendingRemove?;
      ghost var done := target + (loaded.Keys - rest);
      AlreadyRemoved(loaded, target, done);
      while rest != {}
        invariant forall n :: n in rest ==> n in loaded && n !in target && !loaded[n].status.PendingRemove?
        invariant done == target + (loaded.Keys - rest)
        invariant Progress(loaded, target, done, failed)
        invariant failFast ==> failed == {}
        decreases rest
      {
        var n :| n in rest;
        var ok := RemoveRow(n, loaded, target, done);
        if !ok && failFast {
          assert done + {n} <= target + loaded.Keys;
          stopped := true;
          return;
        }
        failed := if ok then failed else failed + {n};
        rest, done := rest - {n}, done + {n};
      }
      assert done == target + loaded.Keys;
    }

    /**
      reconcilePlanNodesCore.  With failFast the first failing write stops it, as
      in the payment transaction; otherwise failures are collected, as in the
      background pass.
     */
    method Reconcile(nodes: seq<Node>, failFast: bool) returns (failed: set<NodeId>, stopped: bool)
      modifies this
      ensures !stopped ==>
                && rows == Partial(old(rows), TargetSet(nodes), TargetSet(nodes) + old(rows).Keys, broken)
                && failed == set n | n in broken && NeedsWrite(old(rows), TargetSet(nodes), n)
      ensures stopped <==> failFast && exists n :: n in broken && NeedsWrite(old(rows), TargetSet(nodes), n)
      ensures stopped ==> Halfway(old(rows), TargetSet(nodes))
    {
      var loaded := rows;
      failed, stopped := AddPath(nodes, loaded, failFast);
      if !stopped {
        failed, stopped := RemovePath(nodes, loaded, failFast, failed);
      }
      assert !stopped ==> forall n :: n in failed <==> n in broken && NeedsWrite(loaded, TargetSet(nodes), n);
    }

    /**
      applyPlanToSubscriptionLocked: the mark step does not look at the
      subscription status; the core returns early for a revoked one.
     */
    method ApplyPlanToSubscription(nodes: seq<Node>, revoked: bool) returns (failed: set<NodeId>)
      modifies this
      ensures rows == Background(old(rows), TargetSet(nodes), broken, revoked)
      ensures !revoked ==> failed == set n | n in broken && NeedsWrite(Marked(old(rows), TargetSet(nodes)), TargetSet(nodes), n)
    {
      MarkActiveNodesPendingUpdate(TargetSet(nodes));
      failed := {};
      if !revoked {
        var stopped;
        failed, stopped := Reconcile(nodes, false);
      }
    }

    /** markAllForRemovalLocked: stops at the first failing write. */
    method MarkAllForRemoval() returns (ok: bool)
      modifies this
      ensures ok <==> broken !! old(rows).Keys
      ensures ok ==> rows == AllPendingRemove(old(rows))
      ensures exists done: set<NodeId> :: done <= old(rows).Keys && done !! broken && rows == Queued(old(rows), done)
    {
      ghost var before := rows;
      var rest := rows.Keys;
      while rest != {}
        invariant rest <= before.Keys == rows.Keys
        invariant broken !! before.Keys - rest
        invariant forall n :: n in before ==> rows[n] == if n in rest then before[n] else Fresh(PendingRemove)
        decreases rest
      {
        var n :| n in rest;
        ok := SetNodeStatus(n, PendingRemove);
        if !ok {
          assert rows == Queued(before, before.Keys - rest);
          return;
        }
        rest := rest - {n};
      }
      ok := true;
      assert rows == AllPendingRemove(before) == Queued(before, before.Keys);
    }

    /** ensureSubscriptionNodes: queue the plan's active nodes that have no row yet. */
    method EnsureSubscriptionNodes(nodes: seq<Node>) returns (ok: bool, created: bool)
      modifies this
      ensures ok ==> rows == WithMissing(old(rows), nodes)
      ensures exists k :: 0 <= k <= |nodes| && rows == WithMissing(old(rows), nodes[..k])
      ensures ok ==> (created <==> !(TargetSet(nodes) <= old(rows).Keys))
      ensures ok <==> TargetSet(nodes) * broken <= old(rows).Keys
    {
      var existing := rows;
      assert rows == WithMissing(existing, nodes[..0]);
      ok, created := true, false;
      for i := 0 to |nodes|
        invariant rows == WithMissing(existing, nodes[..i])
        invariant created <==> !(TargetSet(nodes[..i]) <= existing.Keys)
        invariant TargetSet(nodes[..i]) * broken <= existing.Keys
      {
        TargetSetNext(nodes, i);
        WithMissingNext(existing, nodes, i);
        if nodes[i].isActive && nodes[i].id !in existing {
          ok := UpsertPendingAdd(nodes[i].id);
          if !ok {
            assert rows == WithMissing(existing, nodes[..i]);
            TargetSetGrows(nodes, i + 1);
            return;
          }
          created := true;
        }
      }
      assert nodes[..|nodes|] == nodes;
    }

    /** The statements of ApplyPlanToSubscriptionInTx: the first failing write stops them where they are. */
    method RunPlanStatements(nodes: seq<Node>) returns (ok: bool)
      modifies this
      ensures ok <==> PlanApplies(old(rows), TargetSet(nodes), broken)
      ensures ok ==> rows == Applied(old(rows), TargetSet(nodes))
      ensures !ok ==> Halfway(Marked(old(rows), TargetSet(nodes)), TargetSet(nodes))
    {
      ghost var before := rows;
      MarkActiveNodesPendingUpdate(TargetSet(nodes));
      var failed, stopped := Reconcile(nodes, true);
      ok := !stopped;
      if ok {
        NothingBroken(Marked(before, TargetSet(nodes)), TargetSet(nodes), broken);
      }
    }

    /** ApplyPlanToSubscriptionInTx inside a transaction that rolls back on error. */
    method ApplyPlanToSubscriptionInTx(nodes: seq<Node>) returns (ok: bool)
      modifies this
      ensures ok <==> PlanApplies(old(rows), TargetSet(nodes), broken)
      ensures rows == if ok then Applied(old(rows), TargetSet(nodes)) else old(rows)
    {
      var savepoint := rows;
      ok := RunPlanStatements(nodes);
      if !ok {
        rows := savepoint;
      }
    }
  }

  /** No write that the plan needs is broken. */
  predicate PlanApplies(rows: Rows, target: set<NodeId>, broken: set<NodeId>) {
    forall n :: n in broken ==> !NeedsWrite(Marked(rows, target), target, n)
  }

  /** MarkAllForRemoval: unlike the table, it also resets rows already pending removal. */
  function AllPendingRemove(rows: Rows): Rows {
    map n | n in rows :: Fresh(PendingRemove)
  }

  /** The rows with those in `done` queued for removal. */
  function Queued(rows: Rows, done: set<NodeId>): Rows {
    map n | n in rows :: if n in done then Fresh(PendingRemove) else rows[n]
  }

  /** The rows with a pending add for every active node that has none. */
  function WithMissing(rows: Rows, nodes: seq<Node>): Rows {
    rows + map n | n in TargetSet(nodes) - rows.Keys :: Fresh(PendingAdd)
  }

  lemma WithMissingNext(rows: Rows, nodes: seq<Node>, i: nat)
    requires i < |nodes|
    ensures var (before, n) := (WithMissing(rows, nodes[..i]), nodes[i]);
            WithMissing(rows, nodes[..i + 1]) ==
              if n.isActive && n.id !in rows then before[n.id := Fresh(PendingAdd)] else before
  {
    TargetSetNext(nodes, i);
  }

  /** What the background application leaves behind. */
  function Background(rows: Rows, target: set<NodeId>, broken: set<NodeId>, revoked: bool): Rows {
    if revoked then Marked(rows, target)
    else Partial(Marked(rows, target), target, target + rows.Keys, broken)
  }

  // -------------------------------------------------------------- properties

  lemma NothingBroken(rows: Rows, target: set<NodeId>, broken: set<NodeId>)
    requires forall n :: n in broken ==> !NeedsWrite(rows, target, n)
    ensures Partial(rows, target, target + rows.Keys, broken) == Reconciled(rows, target)
  {
    var all := target + rows.Keys;
    assert forall n :: n in broken && n in all ==> n in rows && ReconciledRow(rows, target, n) == rows[n];
    assert rows.Keys + (target * all - broken) == rows.Keys + target;
  }

  /**
    The outcome of a plan application: every target node is queued for
    provisioning or update, every other row for removal, no row is lost, rows
    appear for target nodes only, and only changed rows lose their retry data.
   */
  lemma AppliedOutcome(rows: Rows, target: set<NodeId>)
    ensures Applied(rows, target).Keys == rows.Keys + target
    ensures forall n :: n in target ==> Applied(rows, target)[n].status in {PendingAdd, PendingUpdate}
    ensures forall n :: n in target ==>
              (Applied(rows, target)[n].status.PendingUpdate? <==> n in rows && rows[n].status in {Active, PendingUpdate})
    ensures forall n :: n in rows && n !in target ==> Applied(rows, target)[n].status.PendingRemove?
    ensures forall n :: n in rows ==>
              Applied(rows, target)[n] == (if Applied(rows, target)[n].status == rows[n].status then rows[n]
                                           else Fresh(Applied(rows, target)[n].status))
  {
  }

  /** Applying the same plan again changes neither statuses nor retry data. */
  lemma AppliedIsStable(rows: Rows, target: set<NodeId>)
    ensures Applied(Applied(rows, target), target) == Applied(rows, target)
  {
    var once := Applied(rows, target);
    AppliedOutcome(rows, target);
    assert Marked(once, target) == once;
    assert Reconciled(once, target) == once;
  }

  /**
    The two entry points agree on every subscription that is not revoked; on a
    revoked one exactly when the mark step already leaves nothing to reconcile.
   */
  lemma TwinsAgree(rows: Rows, target: set<NodeId>, revoked: bool)
    ensures Background(rows, target, {}, revoked) == Applied(rows, target) <==>
              !revoked ||
              ((forall n :: n in target ==> n in rows && !rows[n].status.PendingRemove?) &&
               (forall n :: n in rows && n !in target ==> rows[n].status.PendingRemove?))
  {
    var marked := Marked(rows, target);
    if !revoked {
      NothingBroken(marked, target, {});
    } else {
      AppliedOutcome(rows, target);
      if forall n :: n in rows.Keys + target ==> !NeedsWrite(rows, target, n) {
        assert Applied(rows, target) == marked;
      } else {
        var n :| n in rows.Keys + target && NeedsWrite(rows, target, n);
        assert n in marked ==> marked[n].status != Applied(rows, target)[n].status;
      }
    }
  }

  /**
    Failed single-row writes are contained and repaired: other rows come out as
    if nothing had failed, and the next application completes the change.
   */
  lemma FailuresAreContained(rows: Rows, target: set<NodeId>, broken: set<NodeId>)
    ensures forall n :: n in rows.Keys + target && n !in broken ==>
              n in Background(rows, target, broken, false) &&
              Background(rows, target, broken, false)[n] == Applied(rows, target)[n]
    ensures Applied(Background(rows, target, broken, false), target) == Applied(rows, target)
  {
    var after := Background(rows, target, broken, false);
    var marked := Marked(rows, target);
    assert forall n :: n in after && n in broken ==> after[n] == marked[n];
    assert forall n :: n in rows.Keys + target && n !in broken ==> n in after && after[n] == Applied(rows, target)[n];
    assert Applied(after, target).Keys == Applied(rows, target).Keys;
    forall n | n in Applied(rows, target)
      ensures Applied(after, target)[n] == Applied(rows, target)[n]
    {
      if n in after && n in broken {
        assert Marked(after, target)[n] == marked[n];
      } else if n !in broken {
        assert Marked(after, target)[n] == after[n];
      }
    }
  }

  /** For a revoked subscription the background application creates no row and drops none. */
  lemma RevokedCreatesNothing(rows: Rows, target: set<NodeId>, broken: set<NodeId>)
    ensures Background(rows, target, broken, true).Keys == rows.Keys
  {
  }
}
