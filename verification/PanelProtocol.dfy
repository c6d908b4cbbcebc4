/**
  Bindings against panels as a protocol.  The rows of one subscription and the
  panels that hold its client can never be updated together: every statement and
  every panel call below is a step of its own, the payment transaction and other
  unlocked writers run between any two of them, and a crash may follow any step.
 */
module PanelProtocol {
  import opened Options
  import opened Bindings
  import opened PlanReconcile
  import opened SyncPass

  /** A pending row as the pass loaded it. */
  datatype Task = Task(n: NodeId, row: Row)

  /** A single-row statement of the reconciliation or of MarkAllForRemoval. */
  datatype Write = SetTo(n: NodeId, status: Status) | UpsertAdd(n: NodeId)

  /** Where the pass stands inside one row. */
  datatype Stage =
    | Between
    | Revoking(n: NodeId, row: Row)      // pending_remove is written first
    | Removing(n: NodeId, row: Row)      // node lookup next
    | Deleting(n: NodeId, row: Row)      // panel delete next
    | Dropping(n: NodeId, row: Row)      // node missing or inactive: drop the row next
    | Deleted(n: NodeId, row: Row)       // panel says the client is gone: delete the row next
    | Creating(n: NodeId, row: Row)      // panel create next
    | Updating(n: NodeId, row: Row, adding: bool)  // panel update next
    | Confirmed(n: NodeId, row: Row)     // panel has the client: mark active next
    | Requeueing(n: NodeId, row: Row)    // client gone: pending_add next
    | Failing(n: NodeId, row: Row, retryable: bool)  // retry metadata next

  /** What the holder of the subscription lock is doing. */
  datatype Holder =
    | Nobody
    | Passing(revoked: bool, todo: seq<Task>, stage: Stage)
    | Writing(writes: seq<Write>)

  /**
    `held`: nodes whose panel has the client.  `stale`: nodes whose binding was
    dropped because the node was missing or inactive, and not bound since.
   */
  datatype State = State(rows: Rows, held: set<NodeId>, stale: set<NodeId>, table: map<NodeId, bool>,
                         deleted: bool, holder: Holder)

  datatype Step =
    // under the lock
    | StartPass(revoked: bool, todo: seq<Task>)
    | NextTask(runnable: bool)
    | EndPass
    | Lookup(found: bool, hasClient: bool)  // found is false when the lookup fails
    | Call(reply: Reply)                 // the panel call the stage is about to make
    | ReadPanelProfile(reply: Reply)
    | WriteRow(ok: bool, transient: bool, now: Time)  // the statement the stage is about to run
    | MarkActive(target: set<NodeId>)
    | StartReconcile(target: set<NodeId>, order: seq<NodeId>)
    | StartMarkAll(order: seq<NodeId>)
    | NextWrite(ok: bool)
    | EndWrites
    | Crash
    // without the lock
    | ApplyInTx(target: set<NodeId>)
    | EnsureNode(n: NodeId)
    | ReleaseParked(n: NodeId, parkedAfter: Time)
    | SetNode(n: NodeId, active: Option<bool>)
    | CheckAndDelete

  const Initial := State(map[], {}, {}, map[], false, Nobody)

  predicate LiveIn(s: State, n: NodeId) {
    n in s.table && s.table[n]
  }

  // ------------------------------------------------------------------- steps

  predicate Distinct(todo: seq<Task>) {
    forall i, j :: 0 <= i < j < |todo| ==> todo[i].n != todo[j].n
  }

  predicate CanCall(stage: Stage) {
    stage.Deleting? || stage.Creating? || stage.Updating?
  }

  predicate CanWrite(stage: Stage) {
    stage.Revoking? || stage.Dropping? || stage.Deleted? || stage.Confirmed? || stage.Requeueing? || stage.Failing?
  }

  ghost predicate Enabled(s: State, step: Step) {
    match step
    case StartPass(_, todo) =>
      && s.holder.Nobody? && Distinct(todo)
      && forall i :: 0 <= i < |todo| ==>
           todo[i].n in s.rows && todo[i].row == s.rows[todo[i].n] && !todo[i].row.status.Active?
    case NextTask(_) => s.holder.Passing? && s.holder.stage.Between? && s.holder.todo != []
    case EndPass => s.holder.Passing? && s.holder.stage.Between? && s.holder.todo == []
    case Lookup(_, _) => s.holder.Passing? && s.holder.stage.Removing?
    case Call(_) => s.holder.Passing? && CanCall(s.holder.stage)
    case ReadPanelProfile(_) => s.holder.Passing? && s.holder.stage.Updating? && !s.holder.stage.adding
    case WriteRow(_, _, _) => s.holder.Passing? && CanWrite(s.holder.stage)
    case MarkActive(_) => s.holder.Nobody?
    case StartReconcile(target, order) =>
      s.holder.Nobody? && forall n :: n in order <==> NeedsWrite(s.rows, target, n)
    case StartMarkAll(order) => s.holder.Nobody? && forall n :: n in order <==> n in s.rows
    case NextWrite(_) => s.holder.Writing? && s.holder.writes != []
    case EndWrites => s.holder.Writing? && s.holder.writes == []
    case Crash => true
    case ApplyInTx(_) => !s.deleted
    case EnsureNode(_) => !s.deleted
    case ReleaseParked(_, _) => true
    case SetNode(_, _) => true
    case CheckAndDelete => s.rows == map[]
  }

  function At(s: State, stage: Stage): State
    requires s.holder.Passing?
  {
    s.(holder := s.holder.(stage := stage))
  }

  /** The first stage of a row, by its loaded status and the loaded subscription. */
  function Dispatch(revoked: bool, t: Task, runnable: bool): Stage {
    match t.row.status
    case Active => Between
    case PendingRemove => Removing(t.n, t.row)
    case PendingAdd =>
      if revoked then Revoking(t.n, t.row) else if runnable then Creating(t.n, t.row) else Failing(t.n, t.row, true)
    case PendingUpdate =>
      if revoked then Revoking(t.n, t.row) else if runnable then Updating(t.n, t.row, false) else Failing(t.n, t.row, true)
  }

  /** One panel call: the panel's state and the pass's next stage. */
  function AfterCall(s: State, reply: Reply): State
    requires s.holder.Passing? && CanCall(s.holder.stage)
  {
    var stage := s.holder.stage;
    var n := stage.n;
    var effect := reply.Works? || reply.tookEffect;
    match stage
    case Deleting(_, row) =>
      At(s.(held := if effect then s.held - {n} else s.held),
         if reply.Works? then Deleted(n, row) else Failing(n, row, reply.retryable))
    case Creating(_, row) =>
      At(s.(held := if effect then s.held + {n} else s.held),
         if reply.Fails? then Failing(n, row, reply.retryable)
         else if n in s.held then Updating(n, row, true) else Confirmed(n, row))
    case Updating(_, row, adding) =>
      At(s,
         if reply.Fails? then Failing(n, row, reply.retryable)
         else if n in s.held then Confirmed(n, row)
         else if adding then Failing(n, row, false) else Requeueing(n, row))
  }

  /** One single-row statement of the pass; a missing row or a failed statement changes nothing. */
  function AfterWrite(s: State, ok: bool, transient: bool, now: Time): State
    requires s.holder.Passing? && CanWrite(s.holder.stage)
  {
    var stage := s.holder.stage;
    var n := stage.n;
    var done := ok && n in s.rows;
    match stage
    case Revoking(_, row) =>
      if done then At(s.(rows := s.rows[n := Fresh(PendingRemove)]), Removing(n, Fresh(PendingRemove)))
      else At(s, Failing(n, row, transient))
    case Dropping(_, _) =>
      At(if done then s.(rows := s.rows - {n}, stale := s.stale + {n}) else s, Between)
    case Deleted(_, _) => At(if done then s.(rows := s.rows - {n}) else s, Between)
    case Confirmed(_, _) => At(if done then s.(rows := s.rows[n := Fresh(Active)]) else s, Between)
    case Requeueing(_, _) => At(if done then s.(rows := s.rows[n := Fresh(PendingAdd)]) else s, Between)
    case Failing(_, row, retryable) =>
      var retry := Failed(row, now, retryable);
      At(if done then s.(rows := s.rows[n := Row(s.rows[n].status, retry.retryCount, retry.retryAt)]) else s, Between)
  }

  function TableWrite(rows: Rows, target: set<NodeId>, n: NodeId): Write {
    if n !in target then SetTo(n, PendingRemove)
    else if n in rows then SetTo(n, PendingAdd)
    else UpsertAdd(n)
  }

  function AfterTableWrite(s: State, w: Write, ok: bool): State {
    match w
    case SetTo(n, status) => if ok && n in s.rows then s.(rows := s.rows[n := Fresh(status)]) else s
    case UpsertAdd(n) => if ok && !s.deleted then Insert(s, n) else s
  }

  /** UpsertSubscriptionNode with pending_add; the foreign key refuses it once the parent row is gone. */
  function Insert(s: State, n: NodeId): State {
    s.(rows := s.rows[n := Fresh(PendingAdd)], stale := s.stale - {n})
  }

  ghost function Apply(s: State, step: Step): State
    requires Enabled(s, step)
  {
    match step
    case StartPass(revoked, todo) => s.(holder := Passing(revoked, todo, Between))
    case NextTask(runnable) =>
      s.(holder := Passing(s.holder.revoked, s.holder.todo[1..], Dispatch(s.holder.revoked, s.holder.todo[0], runnable)))
    case EndPass => s.(holder := Nobody)
    case Lookup(found, hasClient) =>
      var n, row := s.holder.stage.n, s.holder.stage.row;
      At(s, if !found then Failing(n, row, true)
            else if !LiveIn(s, n) then Dropping(n, row)
            else if hasClient then Deleting(n, row) else Failing(n, row, true))
    case Call(reply) => AfterCall(s, reply)
    case ReadPanelProfile(reply) =>
      var n, row := s.holder.stage.n, s.holder.stage.row;
      if reply.Fails? then At(s, Failing(n, row, reply.retryable))
      else if n in s.held then s
      else At(s, Requeueing(n, row))
    case WriteRow(ok, transient, now) => AfterWrite(s, ok, transient, now)
    case MarkActive(target) => s.(rows := Marked(s.rows, target))
    case StartReconcile(target, order) =>
      s.(holder := Writing(seq(|order|, i requires 0 <= i < |order| => TableWrite(s.rows, target, order[i]))))
    case StartMarkAll(order) =>
      s.(holder := Writing(seq(|order|, i requires 0 <= i < |order| => SetTo(order[i], PendingRemove))))
    case NextWrite(ok) =>
      AfterTableWrite(s.(holder := Writing(s.holder.writes[1..])), s.holder.writes[0], ok)
    case EndWrites => s.(holder := Nobody)
    case Crash => s.(holder := Nobody)
    case ApplyInTx(target) => s.(rows := Applied(s.rows, target), stale := s.stale - target)
    case EnsureNode(n) => Insert(s, n)
    case ReleaseParked(n, parkedAfter) =>
      if n in s.rows && s.rows[n].retryAt.Some? && s.rows[n].retryAt.value > parkedAfter
      then s.(rows := s.rows[n := Fresh(s.rows[n].status)]) else s
    case SetNode(n, active) =>
      s.(table := if active.Some? then s.table[n := active.value] else s.table - {n})
    case CheckAndDelete => s.(deleted := true)
  }

  // --------------------------------------------------------------- invariant

  /** Rows and panels, at every moment. */
  ghost predicate RowsMatchPanels(s: State) {
    && (forall n :: n in s.rows && s.rows[n].status in {Active, PendingUpdate} ==> n in s.held)
    && (forall n :: n in s.held ==> n in s.rows || n in s.stale)
    && (forall n :: n in s.stale ==> n !in s.rows)
    && (s.deleted ==> s.rows == map[])
  }

  /** The row exists and is not bound: it waits to be added or removed. */
  predicate Unbound(rows: Rows, n: NodeId) {
    n in rows && rows[n].status in {PendingAdd, PendingRemove}
  }

  ghost predicate TodoValid(rows: Rows, todo: seq<Task>) {
    && Distinct(todo)
    && (forall i :: 0 <= i < |todo| ==> todo[i].n in rows)
    && (forall i :: 0 <= i < |todo| && todo[i].row.status.PendingRemove? ==> Unbound(rows, todo[i].n))
  }

  predicate StageValid(s: State, stage: Stage) {
    match stage
    case Between => true
    case Removing(n, _) => Unbound(s.rows, n)
    case Deleting(n, _) => Unbound(s.rows, n)
    case Dropping(n, _) => Unbound(s.rows, n)
    case Deleted(n, _) => Unbound(s.rows, n) && n !in s.held
    case Confirmed(n, _) => n in s.rows && n in s.held
    case Requeueing(n, _) => n in s.rows
    case Revoking(n, _) => n in s.rows
    case Creating(n, _) => n in s.rows
    case Updating(n, _, _) => n in s.rows
    case Failing(n, _, _) => n in s.rows
  }

  ghost predicate HolderValid(s: State) {
    match s.holder
    case Nobody => true
    case Passing(_, todo, stage) =>
      && TodoValid(s.rows, todo)
      && StageValid(s, stage)
      && (!stage.Between? ==> forall i :: 0 <= i < |todo| ==> todo[i].n != stage.n)
    case Writing(writes) =>
      forall i :: 0 <= i < |writes| && writes[i].SetTo? ==> writes[i].status in {PendingAdd, PendingRemove}
  }

  ghost predicate Inv(s: State) {
    RowsMatchPanels(s) && HolderValid(s)
  }

  /** A statement by somebody else: no row disappears and no unbound row becomes bound. */
  ghost predicate Harmless(rows: Rows, rows': Rows) {
    && rows.Keys <= rows'.Keys
    && (forall n :: Unbound(rows, n) ==> Unbound(rows', n))
  }

  lemma HarmlessKeepsHolder(s: State, s': State)
    requires HolderValid(s) && Harmless(s.rows, s'.rows)
    requires s'.holder == s.holder && s'.held == s.held
    ensures HolderValid(s')
  {
  }

  lemma UnlockedPreservesInv(s: State, step: Step)
    requires Inv(s) && Enabled(s, step)
    requires step.ApplyInTx? || step.EnsureNode? || step.ReleaseParked? || step.SetNode? || step.CheckAndDelete?
    ensures Inv(Apply(s, step))
  {
    var s' := Apply(s, step);
    assert RowsMatchPanels(s');
    assert Harmless(s.rows, s'.rows);
    HarmlessKeepsHolder(s, s');
  }

  lemma WritesPreserveInv(s: State, step: Step)
    requires Inv(s) && Enabled(s, step)
    requires step.MarkActive? || step.StartReconcile? || step.StartMarkAll? || step.NextWrite? || step.EndWrites? || step.Crash?
    ensures Inv(Apply(s, step))
  {
  }

  lemma PassBookkeepingPreservesInv(s: State, step: Step)
    requires Inv(s) && Enabled(s, step)
    requires step.StartPass? || step.NextTask? || step.EndPass? || step.Lookup? || step.ReadPanelProfile?
    ensures Inv(Apply(s, step))
  {
    if step.NextTask? {
      var todo := s.holder.todo;
      assert forall i :: 0 <= i < |todo| - 1 ==> todo[1..][i] == todo[i + 1];
    }
  }

  lemma CallKeepsPanels(s: State, reply: Reply)
    requires Inv(s) && Enabled(s, Call(reply))
    ensures RowsMatchPanels(Apply(s, Call(reply)))
  {
  }

  lemma CallKeepsHolder(s: State, reply: Reply)
    requires Inv(s) && Enabled(s, Call(reply))
    ensures HolderValid(Apply(s, Call(reply)))
  {
    var s' := Apply(s, Call(reply));
    assert StageValid(s', s'.holder.stage);
  }

  lemma CallPreservesInv(s: State, reply: Reply)
    requires Inv(s) && Enabled(s, Call(reply))
    ensures Inv(Apply(s, Call(reply)))
  {
    CallKeepsPanels(s, reply);
    CallKeepsHolder(s, reply);
  }

  lemma WriteRowKeepsPanels(s: State, ok: bool, transient: bool, now: Time)
    requires Inv(s) && Enabled(s, WriteRow(ok, transient, now))
    ensures RowsMatchPanels(Apply(s, WriteRow(ok, transient, now)))
  {
  }

  lemma WriteRowKeepsHolder(s: State, ok: bool, transient: bool, now: Time)
    requires Inv(s) && Enabled(s, WriteRow(ok, transient, now))
    ensures HolderValid(Apply(s, WriteRow(ok, transient, now)))
  {
    var s' := Apply(s, WriteRow(ok, transient, now));
    assert StageValid(s', s'.holder.stage);
    assert forall n :: n != s.holder.stage.n ==> (n in s.rows <==> n in s'.rows) && (Unbound(s.rows, n) ==> Unbound(s'.rows, n));
  }

  lemma WriteRowPreservesInv(s: State, ok: bool, transient: bool, now: Time)
    requires Inv(s) && Enabled(s, WriteRow(ok, transient, now))
    ensures Inv(Apply(s, WriteRow(ok, transient, now)))
  {
    WriteRowKeepsPanels(s, ok, transient, now);
    WriteRowKeepsHolder(s, ok, transient, now);
  }

  lemma InvPreserved(s: State, step: Step)
    requires Inv(s) && Enabled(s, step)
    ensures Inv(Apply(s, step))
  {
    match step
    case Call(reply) => CallPreservesInv(s, reply);
    case WriteRow(ok, transient, now) => WriteRowPreservesInv(s, ok, transient, now);
    case StartPass(_, _) => PassBookkeepingPreservesInv(s, step);
    case NextTask(_) => PassBookkeepingPreservesInv(s, step);
    case EndPass => PassBookkeepingPreservesInv(s, step);
    case Lookup(_, _) => PassBookkeepingPreservesInv(s, step);
    case ReadPanelProfile(_) => PassBookkeepingPreservesInv(s, step);
    case ApplyInTx(_) => UnlockedPreservesInv(s, step);
    case EnsureNode(_) => UnlockedPreservesInv(s, step);
    case ReleaseParked(_, _) => UnlockedPreservesInv(s, step);
    case SetNode(_, _) => UnlockedPreservesInv(s, step);
    case CheckAndDelete => UnlockedPreservesInv(s, step);
    case _ => WritesPreserveInv(s, step);
  }

  // ---------------------------------------------------------------- all runs

  /** `steps` leads from s to s', every step enabled in its turn. */
  ghost predicate Reaches(s: State, steps: seq<Step>, s': State)
    decreases |steps|
  {
    if steps == [] then s' == s
    else Enabled(s, steps[0]) && Reaches(Apply(s, steps[0]), steps[1..], s')
  }

  lemma {:induction false} InvOverRuns(s: State, steps: seq<Step>, s': State)
    requires Inv(s) && Reaches(s, steps, s')
    ensures Inv(s')
    decreases |steps|
  {
    if steps != [] {
      InvPreserved(s, steps[0]);
      InvOverRuns(Apply(s, steps[0]), steps[1..], s');
    }
  }

  lemma OpenTasksHaveRows(s: State)
    requires Inv(s)
    ensures s.holder.Passing? && (!s.holder.stage.Between? || s.holder.todo != []) ==> s.rows != map[]
  {
    if s.holder.Passing? && s.holder.todo != [] {
      assert s.holder.todo[0].n in s.rows;
    }
  }

  /**
    Safety of every run: an active or pending_update row means the panel holds
    the client; a client sits on a panel only while a row tracks it, unless its
    binding was dropped with the node; and a deleted subscription has no row, no
    client elsewhere, and no panel call in flight.
   */
  lemma PanelSafety(steps: seq<Step>, s: State)
    requires Reaches(Initial, steps, s)
    ensures forall n :: n in s.rows && s.rows[n].status in {Active, PendingUpdate} ==> n in s.held
    ensures forall n :: n in s.held ==> n in s.rows || n in s.stale
    ensures s.deleted ==> s.rows == map[] && s.held <= s.stale
    ensures s.deleted && s.holder.Passing? ==> s.holder.stage.Between? && s.holder.todo == []
  {
    InvOverRuns(Initial, steps, s);
    OpenTasksHaveRows(s);
  }

  /** No row, and no copy of a row the pass carries, has a counter above the cap. */
  ghost predicate CountersCapped(s: State) {
    && (forall n :: n in s.rows ==> s.rows[n].retryCount <= MAX_SYNC_RETRIES)
    && (s.holder.Passing? ==>
          && (forall i :: 0 <= i < |s.holder.todo| ==> s.holder.todo[i].row.retryCount <= MAX_SYNC_RETRIES)
          && (!s.holder.stage.Between? ==> s.holder.stage.row.retryCount <= MAX_SYNC_RETRIES))
  }

  lemma {:induction false} CountersStayCapped(s: State, steps: seq<Step>, s': State)
    requires CountersCapped(s) && Reaches(s, steps, s')
    ensures CountersCapped(s')
    decreases |steps|
  {
    if steps != [] {
      CappedStep(s, steps[0]);
      CountersStayCapped(Apply(s, steps[0]), steps[1..], s');
    }
  }

  /** Steps that change what the pass carries, but no counter. */
  lemma CappedInPass(s: State, step: Step)
    requires CountersCapped(s) && Enabled(s, step)
    requires step.StartPass? || step.NextTask? || step.Lookup? || step.Call? || step.ReadPanelProfile?
    ensures CountersCapped(Apply(s, step))
  {
    if step.NextTask? {
      var todo := s.holder.todo;
      assert forall i :: 0 <= i < |todo| - 1 ==> todo[1..][i] == todo[i + 1];
    }
  }

  lemma CappedWrite(s: State, step: Step)
    requires CountersCapped(s) && Enabled(s, step) && (step.WriteRow? || step.NextWrite?)
    ensures CountersCapped(Apply(s, step))
  {
  }

  lemma CappedStep(s: State, step: Step)
    requires CountersCapped(s) && Enabled(s, step)
    ensures CountersCapped(Apply(s, step))
  {
    if step.WriteRow? || step.NextWrite? {
      CappedWrite(s, step);
    } else if step.StartPass? || step.NextTask? || step.Lookup? || step.Call? || step.ReadPanelProfile? {
      CappedInPass(s, step);
    }
  }

  /** The cap holds in every run, although failures are written from copies that may be out of date. */
  lemma RetryCountIsCapped(steps: seq<Step>, s: State, n: NodeId)
    requires Reaches(Initial, steps, s) && n in s.rows
    ensures s.rows[n].retryCount <= MAX_SYNC_RETRIES
  {
    CountersStayCapped(Initial, steps, s);
  }

  // ------------------------------------- the sequential pass as one schedule

  /** A panel call and what the panel answered. */
  datatype Made = Made(n: NodeId, op: Op, reply: Reply)

  function OpOf(stage: Stage): Op
    requires CanCall(stage)
  {
    match stage
    case Deleting(_, _) => Delete
    case Creating(_, _) => Create
    case Updating(_, _, _) => Update
  }

  ghost function CallOf(s: State, step: Step): seq<Made>
    requires Enabled(s, step)
  {
    match step
    case Call(reply) => [Made(s.holder.stage.n, OpOf(s.holder.stage), reply)]
    case ReadPanelProfile(reply) => [Made(s.holder.stage.n, ReadProfile, reply)]
    case _ => []
  }

  /** The panel calls of a run, in order. */
  ghost function CallLog(s: State, steps: seq<Step>, s': State): seq<Made>
    requires Reaches(s, steps, s')
    decreases |steps|
  {
    if steps == [] then [] else CallOf(s, steps[0]) + CallLog(Apply(s, steps[0]), steps[1..], s')
  }

  /** The calls an outcome made, with the network's answers. */
  function Answered(net: Network, n: NodeId, calls: seq<Op>): seq<Made> {
    seq(|calls|, i requires 0 <= i < |calls| => Made(n, calls[i], net(n, calls[i])))
  }

  lemma {:induction false} Extend(s: State, steps: seq<Step>, m: State, step: Step)
    requires Reaches(s, steps, m) && Enabled(m, step)
    ensures Reaches(s, steps + [step], Apply(m, step))
    ensures CallLog(s, steps + [step], Apply(m, step)) == CallLog(s, steps, m) + CallOf(m, step)
    decreases |steps|
  {
    if steps == [] {
      assert [step][1..] == [] && steps + [step] == [step];
      assert Reaches(Apply(s, step), [step][1..], Apply(m, step));
      assert CallLog(s, [step], Apply(m, step)) == CallOf(s, step) + CallLog(Apply(s, step), [], Apply(m, step));
    } else {
      Extend(Apply(s, steps[0]), steps[1..], m, step);
      assert (steps + [step])[1..] == steps[1..] + [step] && (steps + [step])[0] == steps[0];
    }
  }

  lemma Then(s: State, steps: seq<Step>, m: State, step: Step) returns (steps': seq<Step>, s': State)
    requires Reaches(s, steps, m) && Enabled(m, step)
    ensures steps' == steps + [step] && s' == Apply(m, step) && Reaches(s, steps', s')
    ensures CallLog(s, steps', s') == CallLog(s, steps, m) + CallOf(m, step)
  {
    Extend(s, steps, m, step);
    steps', s' := steps + [step], Apply(m, step);
  }

  /** A run of one step. */
  lemma Once(s: State, step: Step) returns (steps: seq<Step>, s': State)
    requires Enabled(s, step)
    ensures steps == [step] && s' == Apply(s, step) && Reaches(s, steps, s') && CallLog(s, steps, s') == CallOf(s, step)
  {
    steps, s' := Then(s, [], s, step);
  }

  lemma {:induction false} Join(s: State, a: seq<Step>, m: State, b: seq<Step>, s': State)
    requires Reaches(s, a, m) && Reaches(m, b, s')
    ensures Reaches(s, a + b, s')
    ensures CallLog(s, a + b, s') == CallLog(s, a, m) + CallLog(m, b, s')
    decreases |b|
  {
    if b == [] {
      assert a + b == a;
    } else {
      Extend(s, a, m, b[0]);
      Join(s, a + [b[0]], Apply(m, b[0]), b[1..], s');
      assert a + [b[0]] + b[1..] == a + b;
    }
  }

  /** The state once the pass has settled node n as the outcome says. */
  ghost predicate SettledAs(s: State, n: NodeId, o: Outcome, s': State) {
    && s.holder.Passing?
    && World(s'.rows, s'.held) == Settle(World(s.rows, s.held), n, o)
    && s'.holder == Passing(s.holder.revoked, s.holder.todo, Between)
    && s'.table == s.table
  }

  /** The delete call of a removal and the statement after it. */
  lemma DeletingIsASchedule(env: Env, reply: Reply, s: State, n: NodeId, row: Row) returns (steps: seq<Step>, s': State)
    requires s.holder.Passing? && s.holder.stage == Deleting(n, row)
    requires n in s.rows && s.rows[n] == row
    ensures Reaches(s, steps, s') && CallLog(s, steps, s') == [Made(n, Delete, reply)]
    ensures SettledAs(s, n,
                      if reply.Works? then Outcome(None, false, [])
                      else Retry(env, row, n in s.held && !reply.tookEffect, [], reply.retryable), s')
  {
    steps, s' := Once(s, Call(reply));
    steps, s' := Then(s, steps, s', WriteRow(true, true, env.now));
  }

  lemma RemovingIsASchedule(env: Env, net: Network, s: State, n: NodeId, row: Row) returns (steps: seq<Step>, s': State)
    requires s.holder.Passing? && s.holder.stage == Removing(n, row) && s.table == env.table
    requires n in s.rows && s.rows[n] == row
    ensures Reaches(s, steps, s') && SettledAs(s, n, Remove(env, net, n, row, n in s.held), s')
    ensures CallLog(s, steps, s') == Answered(net, n, Remove(env, net, n, row, n in s.held).calls)
  {
    var lookup, m := Once(s, Lookup(true, n in env.clients));
    if m.holder.stage.Deleting? {
      steps, s' := DeletingIsASchedule(env, net(n, Delete), m, n, row);
    } else {
      steps, s' := Once(m, WriteRow(true, true, env.now));
    }
    Join(s, lookup, m, steps, s');
    steps := lookup + steps;
  }

  lemma AddingIsASchedule(env: Env, net: Network, s: State, n: NodeId, row: Row) returns (steps: seq<Step>, s': State)
    requires Runnable(env, n) && s.holder.Passing? && s.holder.stage == Creating(n, row)
    requires n in s.rows && s.rows[n] == row && row.status.PendingAdd?
    ensures Reaches(s, steps, s') && SettledAs(s, n, Add(env, net, n, row, n in s.held), s')
    ensures CallLog(s, steps, s') == Answered(net, n, Add(env, net, n, row, n in s.held).calls)
  {
    steps, s' := Once(s, Call(net(n, Create)));
    if s'.holder.stage.Updating? {
      steps, s' := Then(s, steps, s', Call(net(n, Update)));
    }
    steps, s' := Then(s, steps, s', WriteRow(true, true, env.now));
  }

  /** The update call of a pending_update row and the statement after it. */
  lemma UpdatingIsASchedule(env: Env, reply: Reply, s: State, n: NodeId, row: Row) returns (steps: seq<Step>, s': State)
    requires s.holder.Passing? && s.holder.stage == Updating(n, row, false)
    requires n in s.rows && s.rows[n] == row && row.status.PendingUpdate?
    ensures Reaches(s, steps, s') && CallLog(s, steps, s') == [Made(n, Update, reply)]
    ensures SettledAs(s, n,
                      if reply.Fails? then Retry(env, row, n in s.held, [], reply.retryable)
                      else Outcome(Some(Fresh(if n in s.held then Active else PendingAdd)), n in s.held, []), s')
  {
    steps, s' := Once(s, Call(reply));
    steps, s' := Then(s, steps, s', WriteRow(true, true, env.now));
  }

  /** The profile could be read: the update follows. */
  lemma ReadThenUpdated(env: Env, net: Network, s: State, n: NodeId, row: Row) returns (steps: seq<Step>, s': State)
    requires s.holder.Passing? && s.holder.stage == Updating(n, row, false) && n in s.held && net(n, ReadProfile).Works?
    requires n in s.rows && s.rows[n] == row && row.status.PendingUpdate?
    ensures Reaches(s, steps, s') && CallLog(s, steps, s') == Answered(net, n, [ReadProfile, Update])
    ensures SettledAs(s, n,
                      if net(n, Update).Fails? then Retry(env, row, true, [], net(n, Update).retryable)
                      else Outcome(Some(Fresh(Active)), true, []), s')
  {
    var read, m := Once(s, ReadPanelProfile(net(n, ReadProfile)));
    steps, s' := UpdatingIsASchedule(env, net(n, Update), m, n, row);
    Join(s, read, m, steps, s');
    steps := read + steps;
  }

  /** The profile could not be read, or there is no client: no update. */
  lemma ReadOnly(env: Env, net: Network, s: State, n: NodeId, row: Row) returns (steps: seq<Step>, s': State)
    requires s.holder.Passing? && s.holder.stage == Updating(n, row, false) && (n !in s.held || net(n, ReadProfile).Fails?)
    requires n in s.rows && s.rows[n] == row && row.status.PendingUpdate?
    ensures Reaches(s, steps, s') && CallLog(s, steps, s') == Answered(net, n, [ReadProfile])
    ensures SettledAs(s, n,
                      if net(n, ReadProfile).Fails? then Retry(env, row, n in s.held, [], net(n, ReadProfile).retryable)
                      else Outcome(Some(Fresh(PendingAdd)), false, []), s')
  {
    steps, s' := Once(s, ReadPanelProfile(net(n, ReadProfile)));
    steps, s' := Then(s, steps, s', WriteRow(true, true, env.now));
  }

  lemma RenewingIsASchedule(env: Env, net: Network, s: State, n: NodeId, row: Row) returns (steps: seq<Step>, s': State)
    requires Runnable(env, n) && s.holder.Passing? && s.holder.stage == Updating(n, row, false)
    requires n in s.rows && s.rows[n] == row && row.status.PendingUpdate?
    ensures Reaches(s, steps, s') && SettledAs(s, n, Renew(env, net, n, row, n in s.held), s')
    ensures CallLog(s, steps, s') == Answered(net, n, Renew(env, net, n, row, n in s.held).calls)
  {
    if n !in env.readers {
      steps, s' := UpdatingIsASchedule(env, net(n, Update), s, n, row);
    } else if n !in s.held || net(n, ReadProfile).Fails? {
      steps, s' := ReadOnly(env, net, s, n, row);
    } else {
      steps, s' := ReadThenUpdated(env, net, s, n, row);
      assert Renew(env, net, n, row, true).calls == [ReadProfile, Update];
    }
  }

  /** A revoked subscription's row is turned into a removal and then removed. */
  lemma RevokingIsASchedule(env: Env, net: Network, s: State, n: NodeId, row: Row) returns (steps: seq<Step>, s': State)
    requires s.holder.Passing? && s.holder.stage == Revoking(n, row) && s.table == env.table
    requires n in s.rows && s.rows[n] == row && row.status in {PendingAdd, PendingUpdate}
    ensures Reaches(s, steps, s') && SettledAs(s, n, SyncRow(env, net, true, n, row, n in s.held), s')
    ensures CallLog(s, steps, s') == Answered(net, n, SyncRow(env, net, true, n, row, n in s.held).calls)
  {
    var write, m := Once(s, WriteRow(true, true, env.now));
    steps, s' := RemovingIsASchedule(env, net, m, n, Fresh(PendingRemove));
    Join(s, write, m, steps, s');
    steps := write + steps;
  }

  /** From the first stage of a row on. */
  lemma StageIsASchedule(env: Env, net: Network, s: State, t: Task) returns (steps: seq<Step>, s': State)
    requires s.holder.Passing? && s.holder.stage == Dispatch(s.holder.revoked, t, Runnable(env, t.n)) && s.table == env.table
    requires t.n in s.rows && s.rows[t.n] == t.row && !t.row.status.Active?
    ensures Reaches(s, steps, s')
    ensures SettledAs(s, t.n, SyncRow(env, net, s.holder.revoked, t.n, t.row, t.n in s.held), s')
    ensures CallLog(s, steps, s') == Answered(net, t.n, SyncRow(env, net, s.holder.revoked, t.n, t.row, t.n in s.held).calls)
  {
    match s.holder.stage {
      case Revoking(_, row) => steps, s' := RevokingIsASchedule(env, net, s, t.n, row);
      case Removing(_, row) => steps, s' := RemovingIsASchedule(env, net, s, t.n, row);
      case Creating(_, row) => steps, s' := AddingIsASchedule(env, net, s, t.n, row);
      case Updating(_, row, _) => steps, s' := RenewingIsASchedule(env, net, s, t.n, row);
      case Failing(_, _, _) => steps, s' := Once(s, WriteRow(true, true, env.now));
    }
  }

  /** Every row outcome of the sequential pass is a run of the protocol, with the same calls and answers. */
  lemma RowIsASchedule(env: Env, net: Network, s: State, t: Task, todo: seq<Task>) returns (steps: seq<Step>, s': State)
    requires s.holder.Passing? && s.holder.stage.Between? && s.holder.todo == [t] + todo && s.table == env.table
    requires t.n in s.rows && s.rows[t.n] == t.row && !t.row.status.Active?
    ensures Reaches(s, steps, s')
    ensures SettledAs(s.(holder := Passing(s.holder.revoked, todo, Between)), t.n,
                      SyncRow(env, net, s.holder.revoked, t.n, t.row, t.n in s.held), s')
    ensures CallLog(s, steps, s') == Answered(net, t.n, SyncRow(env, net, s.holder.revoked, t.n, t.row, t.n in s.held).calls)
  {
    var next, m := Once(s, NextTask(Runnable(env, t.n)));
    assert ([t] + todo)[1..] == todo;
    steps, s' := StageIsASchedule(env, net, m, t);
    Join(s, next, m, steps, s');
    steps := next + steps;
  }

  function Nodes(todo: seq<Task>): set<NodeId> {
    set i | 0 <= i < |todo| :: todo[i].n
  }

  /** The calls of the pass over these rows, in their order. */
  function PassCalls(env: Env, net: Network, revoked: bool, w: World, todo: seq<Task>): seq<Made>
    decreases |todo|
  {
    if todo == [] then []
    else
      var t := todo[0];
      Answered(net, t.n, SyncRow(env, net, revoked, t.n, t.row, t.n in w.held).calls) + PassCalls(env, net, revoked, w, todo[1..])
  }

  /** `todo` lists exactly the due rows of w outside `done`, each once. */
  ghost predicate Remaining(env: Env, w: World, done: set<NodeId>, todo: seq<Task>) {
    && Distinct(todo)
    && (forall i :: 0 <= i < |todo| ==>
          todo[i].n in w.rows && w.rows[todo[i].n] == todo[i].row && Due(todo[i].row, env.now) && todo[i].n !in done)
    && w.rows.Keys == done + Nodes(todo)
  }

  lemma RemainingTail(env: Env, w: World, done: set<NodeId>, todo: seq<Task>)
    requires todo != [] && Remaining(env, w, done, todo)
    ensures Remaining(env, w, done + {todo[0].n}, todo[1..])
    ensures todo == [todo[0]] + todo[1..]
  {
    var rest := todo[1..];
    assert forall i :: 0 <= i < |rest| ==> rest[i] == todo[i + 1];
    assert Nodes(todo) == {todo[0].n} + Nodes(rest);
  }

  /**
    Refinement: the whole sequential pass over the due rows, in any order, is a
    run of the protocol under the lock, with the same panel calls and the network's
    answers, so it inherits the protocol's safety.
   */
  lemma PassIsASchedule(env: Env, net: Network, revoked: bool, s: State, todo: seq<Task>) returns (steps: seq<Step>, s': State)
    requires s.holder.Nobody? && s.table == env.table
    requires Enabled(s, StartPass(revoked, todo))
    requires forall n :: n in Nodes(todo) <==> n in s.rows && Due(s.rows[n], env.now)
    ensures Reaches(s, steps, s') && s'.holder.Nobody?
    ensures World(s'.rows, s'.held) == Pass(env, net, revoked, World(s.rows, s.held))
    ensures CallLog(s, steps, s') == PassCalls(env, net, revoked, World(s.rows, s.held), todo)
  {
    var w := World(s.rows, s.held);
    var start, m := Once(s, StartPass(revoked, todo));
    var done := s.rows.Keys - Nodes(todo);
    PassOnNothingDue(env, net, revoked, w, done);
    assert forall i :: 0 <= i < |todo| ==> todo[i].n in Nodes(todo);
    steps, s' := TodoIsASchedule(env, net, w, done, m);
    Join(s, start, m, steps, s');
    steps, s' := Then(s, start + steps, s', EndPass);
  }

  lemma {:induction false} TodoIsASchedule(env: Env, net: Network, w: World, done: set<NodeId>, s: State)
    returns (steps: seq<Step>, s': State)
    requires s.holder.Passing? && s.holder.stage.Between? && s.table == env.table
    requires World(s.rows, s.held) == PassOn(env, net, s.holder.revoked, w, done)
    requires Remaining(env, w, done, s.holder.todo)
    ensures Reaches(s, steps, s') && s'.holder.Passing? && s'.holder.todo == [] && s'.holder.stage.Between?
    ensures World(s'.rows, s'.held) == Pass(env, net, s.holder.revoked, w)
    ensures CallLog(s, steps, s') == PassCalls(env, net, s.holder.revoked, w, s.holder.todo)
    decreases |s.holder.todo|
  {
    var todo := s.holder.todo;
    if todo == [] {
      assert w.rows.Keys == done;
      return [], s;
    }
    var t, rest := todo[0], todo[1..];
    RemainingTail(env, w, done, todo);
    PassOnNext(env, net, s.holder.revoked, w, done, t.n);
    var first, m := RowIsASchedule(env, net, s, t, rest);
    steps, s' := TodoIsASchedule(env, net, w, done + {t.n}, m);
    Join(s, first, m, steps, s');
    steps := first + steps;
  }

  // --------------------------------- row deletion and concurrent plan changes

  /**
    The final row delete does not look at the row's status.  From any state in
    which a live node's binding waits for removal, a plan application that brings
    the node back, committed between the panel's answer and the row delete, is
    undone: the target node ends with neither row nor client, until some later
    reconciliation inserts it again.
   */
  lemma ReaddedRowIsLost(s: State, n: NodeId) returns (steps: seq<Step>, s': State)
    requires s.holder.Nobody? && !s.deleted && LiveIn(s, n)
    requires n in s.rows && s.rows[n].status.PendingRemove?
    ensures Reaches(s, steps, s') && s'.holder.Nobody? && ApplyInTx({n}) in steps
    ensures n !in s'.rows && n !in s'.held && NeedsWrite(s'.rows, {n}, n)
  {
    var start := StartPass(false, [Task(n, s.rows[n])]);
    steps, s' := [start], Apply(s, start);
    assert Reaches(s', steps[1..], s');
    steps, s' := Then(s, steps, s', NextTask(true));
    steps, s' := Then(s, steps, s', Lookup(true, true));
    steps, s' := Then(s, steps, s', Call(Works));
    steps, s' := Then(s, steps, s', ApplyInTx({n}));
    ghost var upToHere := steps;
    assert ApplyInTx({n}) in upToHere;
    steps, s' := Then(s, steps, s', WriteRow(true, true, 0));
    steps, s' := Then(s, steps, s', EndPass);
  }

  /**
    The retry metadata of a failure is written without looking at the row
    either: a plan application between the failed call and that write has its
    reset overwritten, and the freshly queued add is parked without an attempt.
   */
  lemma RequeuedRowIsParked(s: State, n: NodeId) returns (steps: seq<Step>, s': State)
    requires s.holder.Nobody? && !s.deleted && LiveIn(s, n)
    requires n in s.rows && s.rows[n].status.PendingRemove?
    ensures Reaches(s, steps, s') && s'.holder.Nobody? && ApplyInTx({n}) in steps
    ensures n in s'.rows && s'.rows[n].status.PendingAdd? && s'.rows[n].retryAt == Some(PARKED_RETRY_AT)
  {
    var start := StartPass(false, [Task(n, s.rows[n])]);
    steps, s' := [start], Apply(s, start);
    assert Reaches(s', steps[1..], s');
    steps, s' := Then(s, steps, s', NextTask(true));
    steps, s' := Then(s, steps, s', Lookup(true, true));
    steps, s' := Then(s, steps, s', Call(Fails(false, false)));
    steps, s' := Then(s, steps, s', ApplyInTx({n}));
    ghost var upToHere := steps;
    assert ApplyInTx({n}) in upToHere;
    steps, s' := Then(s, steps, s', WriteRow(true, true, 0));
    steps, s' := Then(s, steps, s', EndPass);
  }

  /** The payment transaction and ensureSubscriptionNodes stay out of every pass. */
  ghost predicate QuietlyReaches(s: State, steps: seq<Step>, s': State)
    decreases |steps|
  {
    if steps == [] then s' == s
    else
      && Enabled(s, steps[0])
      && (steps[0].ApplyInTx? || steps[0].EnsureNode? ==> s.holder.Nobody?)
      && QuietlyReaches(Apply(s, steps[0]), steps[1..], s')
  }

  /** Every row the pass is about to remove is still asked to be removed. */
  ghost predicate RemovalsWanted(s: State) {
    s.holder.Passing? ==>
      var stage := s.holder.stage;
      && (stage.Removing? || stage.Deleting? || stage.Dropping? || stage.Deleted? ==>
            stage.n in s.rows && s.rows[stage.n].status.PendingRemove?)
      && (forall i :: 0 <= i < |s.holder.todo| && s.holder.todo[i].row.status.PendingRemove? ==>
            s.holder.todo[i].n in s.rows && s.rows[s.holder.todo[i].n].status.PendingRemove?)
  }

  /** Steps of the pass that change no row. */
  lemma RemovalsWantedInPass(s: State, step: Step)
    requires RemovalsWanted(s) && Enabled(s, step)
    requires step.StartPass? || step.NextTask? || step.Lookup? || step.Call? || step.ReadPanelProfile?
    ensures RemovalsWanted(Apply(s, step))
  {
    if step.NextTask? {
      var todo := s.holder.todo;
      assert forall i :: 0 <= i < |todo| - 1 ==> todo[1..][i] == todo[i + 1];
    }
  }

  lemma RemovalsWantedAfterWrite(s: State, step: Step)
    requires Inv(s) && RemovalsWanted(s) && Enabled(s, step) && step.WriteRow?
    ensures RemovalsWanted(Apply(s, step))
  {
  }

  lemma RemovalsWantedPreserved(s: State, step: Step)
    requires Inv(s) && RemovalsWanted(s) && Enabled(s, step)
    requires step.ApplyInTx? || step.EnsureNode? ==> s.holder.Nobody?
    ensures RemovalsWanted(Apply(s, step))
  {
    if step.WriteRow? {
      RemovalsWantedAfterWrite(s, step);
    } else if step.StartPass? || step.NextTask? || step.Lookup? || step.Call? || step.ReadPanelProfile? {
      RemovalsWantedInPass(s, step);
    }
  }

  lemma {:induction false} QuietRunsDropOnlyRemovals(s: State, steps: seq<Step>, s': State)
    requires Inv(s) && RemovalsWanted(s) && QuietlyReaches(s, steps, s')
    ensures Inv(s') && RemovalsWanted(s')
    decreases |steps|
  {
    if steps != [] {
      InvPreserved(s, steps[0]);
      RemovalsWantedPreserved(s, steps[0]);
      QuietRunsDropOnlyRemovals(Apply(s, steps[0]), steps[1..], s');
    }
  }
}
