/**
  Which plan's limits a panel has.  A pass pushes the limits of the plan its
  subscription had when the pass loaded it; a payment, chargeback or expiry can
  move the subscription to another plan before the pass marks the row active.
 */
module PanelLimits {
  import opened Options
  import opened Bindings
  import opened PlanReconcile
  import opened SyncPass
  import opened PanelProtocol
  import opened PanelRaces

  type PlanId = nat

  /**
    `plan`: the subscription's plan.  `loaded`: the plan the last pass loaded.
    `pushed`: for each node whose panel has the client, the plan its limits are from.
   */
  datatype Limited = Limited(s: State, plan: PlanId, loaded: PlanId, pushed: map<NodeId, PlanId>)

  /** A step of the protocol, or a transaction that changes the plan and applies it. */
  datatype Move = Do(step: Step) | ChangePlan(target: set<NodeId>, plan: PlanId)

  // ------------------------------------------------------------------- steps

  function StepOf(m: Move): Step {
    match m
    case Do(step) => step
    case ChangePlan(target, _) => ApplyInTx(target)
  }

  /** Plan changes come with their plan. */
  ghost predicate Can(x: Limited, m: Move) {
    Enabled(x.s, StepOf(m)) && (m.Do? ==> !m.step.ApplyInTx?)
  }

  /** A create that finds no client, or an update that finds one, leaves the loaded plan's limits; a delete takes them along. */
  function Pushed(x: Limited, reply: Reply): map<NodeId, PlanId>
    requires x.s.holder.Passing? && CanCall(x.s.holder.stage)
  {
    var n := x.s.holder.stage.n;
    if reply.Fails? && !reply.tookEffect then x.pushed
    else match x.s.holder.stage
      case Deleting(_, _) => x.pushed - {n}
      case Creating(_, _) => if n in x.s.held then x.pushed else x.pushed[n := x.loaded]
      case Updating(_, _, _) => if n in x.s.held then x.pushed[n := x.loaded] else x.pushed
  }

  ghost function Advance(x: Limited, m: Move): Limited
    requires Can(x, m)
  {
    var s' := Apply(x.s, StepOf(m));
    match m
    case ChangePlan(_, plan) => x.(s := s', plan := plan)
    case Do(StartPass(_, _)) => x.(s := s', loaded := x.plan)
    case Do(Call(reply)) => x.(s := s', pushed := Pushed(x, reply))
    case Do(_) => x.(s := s')
  }

  ghost predicate Leads(x: Limited, moves: seq<Move>, x': Limited)
    decreases |moves|
  {
    if moves == [] then x' == x
    else Can(x, moves[0]) && Leads(Advance(x, moves[0]), moves[1..], x')
  }

  ghost predicate New(x: Limited) {
    x.s == Initial && x.pushed == map[]
  }

  // ---------------------------------------------------------------- markings

  /** Marking a node active: the plan the pass had loaded, and the plan at that moment. */
  datatype Marking = Marking(loaded: PlanId, plan: PlanId)

  predicate Marks(x: Limited, m: Move, n: NodeId) {
    && m.Do? && m.step.WriteRow? && m.step.ok
    && x.s.holder.Passing? && x.s.holder.stage.Confirmed? && x.s.holder.stage.n == n && n in x.s.rows
  }

  function Remarked(x: Limited, m: Move, n: NodeId, mark: Option<Marking>): Option<Marking> {
    if Marks(x, m, n) then Some(Marking(x.loaded, x.plan)) else mark
  }

  /** The last marking of node n in the run. */
  ghost function LastMarking(x: Limited, moves: seq<Move>, x': Limited, n: NodeId, mark: Option<Marking>): Option<Marking>
    requires Leads(x, moves, x')
    decreases |moves|
  {
    if moves == [] then mark
    else LastMarking(Advance(x, moves[0]), moves[1..], x', n, Remarked(x, moves[0], n, mark))
  }

  // --------------------------------------------------------------- invariant

  /** No pass carries a copy of an active row. */
  ghost predicate ActiveIsLeft(s: State, n: NodeId) {
    forall row :: Carries(s, n, row) ==> n in s.rows && !s.rows[n].status.Active? && !row.status.Active?
  }

  /** A confirmed client has the limits the pass loaded. */
  predicate ConfirmedHasLoaded(x: Limited, n: NodeId) {
    x.s.holder.Passing? && x.s.holder.stage.Confirmed? && x.s.holder.stage.n == n ==>
      n in x.pushed && x.pushed[n] == x.loaded
  }

  /** An active row has been marked, its limits are the marking's, and so is the plan. */
  predicate ActiveIsMarked(x: Limited, n: NodeId, mark: Option<Marking>) {
    n in x.s.rows && x.s.rows[n].status.Active? ==>
      mark.Some? && n in x.pushed && x.pushed[n] == mark.value.loaded && x.plan == mark.value.plan
  }

  ghost predicate Limits(x: Limited, n: NodeId, mark: Option<Marking>) {
    Inv(x.s) && ActiveIsLeft(x.s, n) && ConfirmedHasLoaded(x, n) && ActiveIsMarked(x, n, mark)
  }

  lemma LeftAfterOthers(s: State, step: Step, n: NodeId)
    requires ActiveIsLeft(s, n) && Enabled(s, step)
    requires step.ApplyInTx? || step.EnsureNode? || step.ReleaseParked? || step.SetNode? || step.CheckAndDelete?
    ensures ActiveIsLeft(Apply(s, step), n)
  {
    var s' := Apply(s, step);
    forall row | Carries(s', n, row)
      ensures n in s'.rows && !s'.rows[n].status.Active? && !row.status.Active?
    {
      assert Carries(s, n, row);
      PlanMoves(s, step, n);
    }
  }

  lemma LeftInPass(s: State, step: Step, n: NodeId)
    requires ActiveIsLeft(s, n) && Enabled(s, step)
    requires step.NextTask? || step.Lookup? || step.Call? || step.ReadPanelProfile?
    ensures ActiveIsLeft(Apply(s, step), n)
  {
    forall row | Carries(Apply(s, step), n, row)
      ensures n in s.rows && !s.rows[n].status.Active? && !row.status.Active? && Apply(s, step).rows == s.rows
    {
      CarriedBefore(s, step, n, row);
    }
  }

  lemma LeftAfterWrite(s: State, step: Step, n: NodeId)
    requires Inv(s) && ActiveIsLeft(s, n) && Enabled(s, step) && step.WriteRow?
    ensures ActiveIsLeft(Apply(s, step), n)
  {
    var s' := Apply(s, step);
    forall row | Carries(s', n, row)
      ensures n in s'.rows && !s'.rows[n].status.Active? && !row.status.Active?
    {
      if !Copies(s, step, n) {
        assert Carries(s, n, row);
      }
    }
  }

  lemma LeftAfter(s: State, step: Step, n: NodeId)
    requires Inv(s) && ActiveIsLeft(s, n) && Enabled(s, step)
    ensures ActiveIsLeft(Apply(s, step), n)
  {
    match step
    case StartPass(_, _) =>
    case WriteRow(_, _, _) => LeftAfterWrite(s, step, n);
    case NextTask(_) => LeftInPass(s, step, n);
    case Lookup(_, _) => LeftInPass(s, step, n);
    case Call(_) => LeftInPass(s, step, n);
    case ReadPanelProfile(_) => LeftInPass(s, step, n);
    case ApplyInTx(_) => LeftAfterOthers(s, step, n);
    case EnsureNode(_) => LeftAfterOthers(s, step, n);
    case ReleaseParked(_, _) => LeftAfterOthers(s, step, n);
    case SetNode(_, _) => LeftAfterOthers(s, step, n);
    case CheckAndDelete => LeftAfterOthers(s, step, n);
    case _ =>
  }

  lemma ConfirmedAfterCall(x: Limited, reply: Reply, n: NodeId)
    requires Can(x, Do(Call(reply)))
    ensures ConfirmedHasLoaded(Advance(x, Do(Call(reply))), n)
  {
  }

  lemma ConfirmedAfter(x: Limited, m: Move, n: NodeId)
    requires ConfirmedHasLoaded(x, n) && Can(x, m)
    ensures ConfirmedHasLoaded(Advance(x, m), n)
  {
    if m.Do? && m.step.Call? {
      ConfirmedAfterCall(x, m.step.reply, n);
    } else {
      ConfirmedNotAnew(x.s, StepOf(m), n);
    }
  }

  /** Only a call confirms. */
  lemma ConfirmedNotAnew(s: State, step: Step, n: NodeId)
    requires Enabled(s, step) && !step.Call?
    ensures var s' := Apply(s, step);
            s'.holder.Passing? && s'.holder.stage.Confirmed? ==>
              s.holder.Passing? && s.holder.stage == s'.holder.stage && !step.StartPass?
  {
  }

  lemma WriteActivates(s: State, ok: bool, transient: bool, now: Time, n: NodeId)
    requires Enabled(s, WriteRow(ok, transient, now))
    ensures var s' := Apply(s, WriteRow(ok, transient, now));
            var marked := ok && s.holder.stage.Confirmed? && s.holder.stage.n == n && n in s.rows;
            && (marked ==> n in s'.rows && s'.rows[n] == Fresh(Active))
            && (n in s'.rows && s'.rows[n].status.Active? && !marked ==> n in s.rows && s.rows[n].status.Active?)
  {
  }

  lemma OthersDoNotActivate(s: State, step: Step, n: NodeId)
    requires Inv(s) && Enabled(s, step) && !step.WriteRow?
    ensures var s' := Apply(s, step);
            n in s'.rows && s'.rows[n].status.Active? ==> n in s.rows && s.rows[n].status.Active? && !step.ApplyInTx?
  {
  }

  /** A row becomes active by a marking and by nothing else, and a change of plan leaves none active. */
  lemma ActiveOnlyByMarking(x: Limited, m: Move, n: NodeId)
    requires Inv(x.s) && Can(x, m)
    ensures var s' := Advance(x, m).s;
            n in s'.rows && s'.rows[n].status.Active? && !Marks(x, m, n) ==>
              n in x.s.rows && x.s.rows[n].status.Active? && !m.ChangePlan?
    ensures Marks(x, m, n) ==> n in Advance(x, m).s.rows && Advance(x, m).s.rows[n] == Fresh(Active)
  {
    var step := StepOf(m);
    if step.WriteRow? {
      WriteActivates(x.s, step.ok, step.transient, step.now, n);
    } else {
      OthersDoNotActivate(x.s, step, n);
    }
  }

  /** The limits of an active row are touched by nobody. */
  lemma PushedOnlyIfCarried(x: Limited, m: Move, n: NodeId)
    requires Can(x, m) && ActiveIsLeft(x.s, n) && n in x.s.rows && x.s.rows[n].status.Active?
    ensures (n in Advance(x, m).pushed <==> n in x.pushed) && (n in x.pushed ==> Advance(x, m).pushed[n] == x.pushed[n])
  {
    if m.Do? && m.step.Call? && x.s.holder.stage.n == n {
      assert Carries(x.s, n, x.s.holder.stage.row);
    }
  }

  lemma LimitsKept(x: Limited, m: Move, n: NodeId, mark: Option<Marking>)
    requires Limits(x, n, mark) && Can(x, m)
    ensures Limits(Advance(x, m), n, Remarked(x, m, n, mark))
  {
    InvPreserved(x.s, StepOf(m));
    LeftAfter(x.s, StepOf(m), n);
    ConfirmedAfter(x, m, n);
    ActiveOnlyByMarking(x, m, n);
    if n in x.s.rows && x.s.rows[n].status.Active? {
      PushedOnlyIfCarried(x, m, n);
    }
  }

  lemma {:induction false} LimitsOverRun(x: Limited, moves: seq<Move>, x': Limited, n: NodeId, mark: Option<Marking>)
    requires Limits(x, n, mark) && Leads(x, moves, x')
    ensures Limits(x', n, LastMarking(x, moves, x', n, mark))
    decreases |moves|
  {
    if moves != [] {
      LimitsKept(x, moves[0], n, mark);
      LimitsOverRun(Advance(x, moves[0]), moves[1..], x', n, Remarked(x, moves[0], n, mark));
    }
  }

  // ------------------------------------------------------------------ theorem

  /**
    In every run an active row means that the panel has the current plan's limits
    exactly when the pass that last marked it active had loaded the plan the
    subscription had at that marking.
   */
  lemma ActiveHasThePlanExactly(x: Limited, moves: seq<Move>, x': Limited, n: NodeId)
    requires New(x) && Leads(x, moves, x') && n in x'.s.rows && x'.s.rows[n].status.Active?
    ensures var mark := LastMarking(x, moves, x', n, None);
            && mark.Some? && n in x'.s.held && n in x'.pushed
            && x'.plan == mark.value.plan
            && (x'.pushed[n] == x'.plan <==> mark.value.loaded == mark.value.plan)
  {
    LimitsOverRun(x, moves, x', n, None);
  }

  // ----------------------------------------------------- it does happen, and stays

  lemma {:induction false} Longer(x: Limited, moves: seq<Move>, m: Limited, move: Move)
    requires Leads(x, moves, m) && Can(m, move)
    ensures Leads(x, moves + [move], Advance(m, move))
    decreases |moves|
  {
    if moves == [] {
      assert ([move])[1..] == [];
      assert Leads(Advance(x, move), [move][1..], Advance(m, move));
    } else {
      Longer(Advance(x, moves[0]), moves[1..], m, move);
      assert (moves + [move])[1..] == moves[1..] + [move];
    }
  }

  lemma Next(x: Limited, moves: seq<Move>, m: Limited, move: Move) returns (moves': seq<Move>, m': Limited)
    requires Leads(x, moves, m) && Can(m, move)
    ensures moves' == moves + [move] && m' == Advance(m, move) && Leads(x, moves', m')
  {
    Longer(x, moves, m, move);
    moves', m' := moves + [move], Advance(m, move);
  }

  /** A new binding's client is created, with the limits of the plan the pass loaded. */
  lemma CreatedForLoaded(x: Limited, n: NodeId) returns (moves: seq<Move>, x': Limited)
    requires x.s.holder.Nobody? && !x.s.deleted && n in x.s.rows && x.s.rows[n].status.PendingAdd? && n !in x.s.held
    ensures Leads(x, moves, x') && x'.s.rows == x.s.rows && !x'.s.deleted && x'.plan == x.plan && x'.pushed == x.pushed[n := x.plan]
    ensures x'.s.holder == Passing(false, [], Confirmed(n, x.s.rows[n]))
  {
    moves, x' := Next(x, [], x, Do(StartPass(false, [Task(n, x.s.rows[n])])));
    moves, x' := Next(x, moves, x', Do(NextTask(true)));
    moves, x' := Next(x, moves, x', Do(Call(Works)));
  }

  /**
    The subscription then moves to another plan that also has the node; the row is
    marked active all the same, and no pass has it to do any more.
   */
  lemma OldLimitsStay(x: Limited, n: NodeId, plan: PlanId) returns (moves: seq<Move>, x': Limited)
    requires x.s.holder.Nobody? && !x.s.deleted && n in x.s.rows && x.s.rows[n].status.PendingAdd? && n !in x.s.held
    ensures Leads(x, moves, x') && x'.s.holder.Nobody? && x'.plan == plan
    ensures n in x'.s.rows && x'.s.rows[n] == Fresh(Active) && n in x'.pushed && x'.pushed[n] == x.plan
  {
    moves, x' := CreatedForLoaded(x, n);
    moves, x' := Next(x, moves, x', ChangePlan({n}, plan));
    moves, x' := Next(x, moves, x', Do(WriteRow(true, true, 0)));
    moves, x' := Next(x, moves, x', Do(EndPass));
  }
}
