/**
  When a pass writes for a row that is no longer the one it copied.  Every write of
  a pass is computed from a copy; plan changes commit without the lock, so the copy
  can be overtaken.  Here is exactly when, over every run.
 */
module PanelRaces {
  import opened Options
  import opened Bindings
  import opened PlanReconcile
  import opened SyncPass
  import opened PanelProtocol

  // ------------------------------------------------------------ plan changes

  /** The plan change wants node n. */
  predicate Adds(step: Step, n: NodeId) {
    (step.ApplyInTx? && n in step.target) || (step.EnsureNode? && step.n == n)
  }

  /** The plan change does not want node n. */
  predicate Removes(step: Step, n: NodeId) {
    step.ApplyInTx? && n !in step.target
  }

  /** The last plan change that decides about node n. */
  function LastChange(since: seq<Step>, n: NodeId): Option<Step> {
    if since == [] then None
    else
      var last := since[|since| - 1];
      if Adds(last, n) || Removes(last, n) then Some(last) else LastChange(since[..|since| - 1], n)
  }

  /** The plan changes since the copy was taken have moved the row off the copied status. */
  predicate Overtaken(copy: Status, since: seq<Step>, n: NodeId) {
    match copy
    case PendingRemove => LastChange(since, n).Some? && Adds(LastChange(since, n).value, n)
    case PendingAdd => LastChange(since, n).Some? && Removes(LastChange(since, n).value, n)
    case PendingUpdate => exists i :: 0 <= i < |since| && (Removes(since[i], n) || since[i] == EnsureNode(n))
    case Active => false
  }

  /** One plan change, on the status of a row. */
  function Moved(status: Status, step: Step, n: NodeId): Status {
    if Removes(step, n) then PendingRemove
    else if step == EnsureNode(n) then PendingAdd
    else if Adds(step, n) then
      if status.PendingRemove? then PendingAdd else if status.Active? then PendingUpdate else status
    else status
  }

  function MovedBy(copy: Status, since: seq<Step>, n: NodeId): Status {
    if since == [] then copy else Moved(MovedBy(copy, since[..|since| - 1], n), since[|since| - 1], n)
  }

  /** The step writes the row anew, without retry data. */
  predicate Resets(row: Row, step: Step, n: NodeId) {
    || (Removes(step, n) && !row.status.PendingRemove?)
    || step == EnsureNode(n)
    || (step.ApplyInTx? && Adds(step, n) && row.status in {PendingRemove, Active})
    || (step.ReleaseParked? && step.n == n && row.retryAt.Some? && row.retryAt.value > step.parkedAfter)
  }

  /** One step of somebody else, on a whole row. */
  function MovedRow(row: Row, step: Step, n: NodeId): Row {
    if Resets(row, step, n) then Fresh(Moved(row.status, step, n)) else row
  }

  function MovedRowBy(row: Row, since: seq<Step>, n: NodeId): Row {
    if since == [] then row else MovedRow(MovedRowBy(row, since[..|since| - 1], n), since[|since| - 1], n)
  }

  /** Some step since the copy has reset the row: a plan change that moved it, an insertion, or a release. */
  predicate ResetSince(row: Row, since: seq<Step>, n: NodeId) {
    since != [] &&
    var front := since[..|since| - 1];
    ResetSince(row, front, n) || Resets(MovedRowBy(row, front, n), since[|since| - 1], n)
  }

  lemma {:induction false} WholeRowMoves(row: Row, since: seq<Step>, n: NodeId)
    ensures MovedRowBy(row, since, n) == if ResetSince(row, since, n) then Fresh(MovedBy(row.status, since, n)) else row
    ensures MovedRowBy(row, since, n).status == MovedBy(row.status, since, n)
  {
    if since != [] {
      WholeRowMoves(row, since[..|since| - 1], n);
    }
  }

  lemma {:induction false} OvertakenIsMoved(copy: Status, since: seq<Step>, n: NodeId)
    requires !copy.Active?
    ensures Overtaken(copy, since, n) <==> MovedBy(copy, since, n) != copy
    ensures LastChange(since, n).None? ==> MovedBy(copy, since, n) == copy
    ensures LastChange(since, n).Some? ==>
              (Removes(LastChange(since, n).value, n) <==> MovedBy(copy, since, n).PendingRemove?)
    ensures MovedBy(copy, since, n).PendingUpdate? ==> copy.PendingUpdate?
    ensures !MovedBy(copy, since, n).Active?
  {
    if since != [] {
      var (front, last) := (since[..|since| - 1], since[|since| - 1]);
      OvertakenIsMoved(copy, front, n);
      assert forall i :: 0 <= i < |front| ==> front[i] == since[i];
    }
  }

  // ---------------------------------------------------------------- the copy

  /** The pass carries this copy of row n, waiting or at work on it. */
  ghost predicate Carries(s: State, n: NodeId, row: Row) {
    && s.holder.Passing?
    && (|| (!s.holder.stage.Between? && s.holder.stage.n == n && s.holder.stage.row == row)
        || exists i :: 0 <= i < |s.holder.todo| && s.holder.todo[i] == Task(n, row))
  }

  /** The step takes a new copy of row n: it loads the rows, or turns this one into a removal. */
  predicate Copies(s: State, step: Step, n: NodeId) {
    || step.StartPass?
    || (step.WriteRow? && step.ok && s.holder.Passing? && s.holder.stage.Revoking? && s.holder.stage.n == n && n in s.rows)
  }

  function Extended(s: State, step: Step, n: NodeId, since: seq<Step>): seq<Step> {
    if Copies(s, step, n) then [] else since + [step]
  }

  /** The steps of the run after the last copy of row n. */
  ghost function SinceCopied(s: State, steps: seq<Step>, s': State, n: NodeId, since: seq<Step>): seq<Step>
    requires Reaches(s, steps, s')
    decreases |steps|
  {
    if steps == [] then since
    else SinceCopied(Apply(s, steps[0]), steps[1..], s', n, Extended(s, steps[0], n, since))
  }

  /** The row is where the plan changes since the copy have moved it. */
  ghost predicate Tracked(s: State, n: NodeId, since: seq<Step>) {
    forall row :: Carries(s, n, row) ==>
      n in s.rows && !row.status.Active? && s.rows[n] == MovedRowBy(row, since, n)
  }

  /** A step of somebody else moves every row as MovedRow says. */
  lemma PlanMoves(s: State, step: Step, n: NodeId)
    requires Enabled(s, step) && n in s.rows
    requires step.ApplyInTx? || step.EnsureNode? || step.ReleaseParked? || step.SetNode? || step.CheckAndDelete?
    ensures n in Apply(s, step).rows && Apply(s, step).rows[n] == MovedRow(s.rows[n], step, n)
  {
  }

  lemma MovedOnce(row: Row, since: seq<Step>, step: Step, n: NodeId)
    ensures MovedRowBy(row, since + [step], n) == MovedRow(MovedRowBy(row, since, n), step, n)
  {
    assert (since + [step])[..|since|] == since;
  }

  lemma UnlockedKeepsTrack(s: State, step: Step, n: NodeId, since: seq<Step>)
    requires Tracked(s, n, since) && Enabled(s, step)
    requires step.ApplyInTx? || step.EnsureNode? || step.ReleaseParked? || step.SetNode? || step.CheckAndDelete?
    ensures Tracked(Apply(s, step), n, since + [step])
  {
    var s' := Apply(s, step);
    forall row | Carries(s', n, row)
      ensures n in s'.rows && !row.status.Active? && s'.rows[n] == MovedRowBy(row, since + [step], n)
    {
      assert Carries(s, n, row);
      PlanMoves(s, step, n);
      MovedOnce(row, since, step, n);
    }
  }

  lemma StartKeepsTrack(s: State, step: Step, n: NodeId)
    requires Enabled(s, step) && step.StartPass?
    ensures Tracked(Apply(s, step), n, [])
  {
  }

  /** Bookkeeping and calls of the pass leave rows and copies alone. */
  lemma PassKeepsTrack(s: State, step: Step, n: NodeId, since: seq<Step>)
    requires Tracked(s, n, since) && Enabled(s, step)
    requires step.NextTask? || step.Lookup? || step.Call? || step.ReadPanelProfile?
    ensures Tracked(Apply(s, step), n, since + [step])
  {
    var s' := Apply(s, step);
    forall row | Carries(s', n, row)
      ensures n in s'.rows && !row.status.Active? && s'.rows[n] == MovedRowBy(row, since + [step], n)
    {
      CarriedBefore(s, step, n, row);
      MovedOnce(row, since, step, n);
    }
  }

  lemma CarriedBefore(s: State, step: Step, n: NodeId, row: Row)
    requires Enabled(s, step) && Carries(Apply(s, step), n, row)
    requires step.NextTask? || step.Lookup? || step.Call? || step.ReadPanelProfile?
    ensures Carries(s, n, row) && Apply(s, step).rows == s.rows
  {
    if step.NextTask? {
      var todo := s.holder.todo;
      assert forall i :: 0 <= i < |todo| - 1 ==> todo[1..][i] == todo[i + 1];
      assert todo[0] == Task(todo[0].n, todo[0].row);
    }
  }

  lemma WriteKeepsTrack(s: State, step: Step, n: NodeId, since: seq<Step>)
    requires Inv(s) && Tracked(s, n, since) && Enabled(s, step) && step.WriteRow?
    ensures Tracked(Apply(s, step), n, Extended(s, step, n, since))
  {
    var s' := Apply(s, step);
    forall row | Carries(s', n, row)
      ensures n in s'.rows && !row.status.Active? && s'.rows[n] == MovedRowBy(row, Extended(s, step, n, since), n)
    {
      if !Copies(s, step, n) {
        assert Carries(s, n, row);
        MovedOnce(row, since, step, n);
      }
    }
  }

  lemma StepKeepsTrack(s: State, step: Step, n: NodeId, since: seq<Step>)
    requires Inv(s) && Tracked(s, n, since) && Enabled(s, step)
    ensures Tracked(Apply(s, step), n, Extended(s, step, n, since))
  {
    match step
    case StartPass(_, _) => StartKeepsTrack(s, step, n);
    case WriteRow(_, _, _) => WriteKeepsTrack(s, step, n, since);
    case NextTask(_) => PassKeepsTrack(s, step, n, since);
    case Lookup(_, _) => PassKeepsTrack(s, step, n, since);
    case Call(_) => PassKeepsTrack(s, step, n, since);
    case ReadPanelProfile(_) => PassKeepsTrack(s, step, n, since);
    case ApplyInTx(_) => UnlockedKeepsTrack(s, step, n, since);
    case EnsureNode(_) => UnlockedKeepsTrack(s, step, n, since);
    case ReleaseParked(_, _) => UnlockedKeepsTrack(s, step, n, since);
    case SetNode(_, _) => UnlockedKeepsTrack(s, step, n, since);
    case CheckAndDelete => UnlockedKeepsTrack(s, step, n, since);
    case _ =>
  }

  lemma {:induction false} TrackedOverRun(s: State, steps: seq<Step>, s': State, n: NodeId, since: seq<Step>)
    requires Inv(s) && Tracked(s, n, since) && Reaches(s, steps, s')
    ensures Tracked(s', n, SinceCopied(s, steps, s', n, since))
    decreases |steps|
  {
    if steps != [] {
      InvPreserved(s, steps[0]);
      StepKeepsTrack(s, steps[0], n, since);
      TrackedOverRun(Apply(s, steps[0]), steps[1..], s', n, Extended(s, steps[0], n, since));
    }
  }

  /**
    In every run, whatever row a pass is at work on or has still to do: the row is
    still the copy unless some step since the copy has reset it, and then it has no
    retry data.  It has left the status of the copy exactly when the plan changes
    have overtaken it: a removal by a last change that wants the node, an addition
    by a last change that does not, an update by any change but one that goes on
    wanting the node.
   */
  lemma CopyIsCurrentExactly(steps: seq<Step>, s: State, n: NodeId, row: Row)
    requires Reaches(Initial, steps, s) && Carries(s, n, row)
    ensures var since := SinceCopied(Initial, steps, s, n, []);
            && n in s.rows
            && s.rows[n] == (if ResetSince(row, since, n) then Fresh(s.rows[n].status) else row)
            && (s.rows[n].status != row.status <==> Overtaken(row.status, since, n))
  {
    var since := SinceCopied(Initial, steps, s, n, []);
    TrackedOverRun(Initial, steps, s, n, []);
    WholeRowMoves(row, since, n);
    OvertakenIsMoved(row.status, since, n);
  }

  // ------------------------------------------------------------- what is lost

  /** A copy at work has the status its stage is for. */
  predicate StageFits(s: State) {
    s.holder.Passing? ==>
      match s.holder.stage
      case Between => true
      case Revoking(_, row) => row.status in {PendingAdd, PendingUpdate}
      case Removing(_, row) => row.status.PendingRemove?
      case Deleting(_, row) => row.status.PendingRemove?
      case Dropping(_, row) => row.status.PendingRemove?
      case Deleted(_, row) => row.status.PendingRemove?
      case Creating(_, row) => row.status.PendingAdd?
      case Updating(_, row, adding) => if adding then row.status.PendingAdd? else row.status.PendingUpdate?
      case Confirmed(_, row) => row.status in {PendingAdd, PendingUpdate}
      case Requeueing(_, row) => row.status.PendingUpdate?
      case Failing(_, row, _) => !row.status.Active?
  }

  lemma StageStaysFit(s: State, step: Step)
    requires StageFits(s) && Enabled(s, step)
    ensures StageFits(Apply(s, step))
  {
  }

  lemma {:induction false} StageFitsOverRun(s: State, steps: seq<Step>, s': State)
    requires StageFits(s) && Reaches(s, steps, s')
    ensures StageFits(s')
    decreases |steps|
  {
    if steps != [] {
      StageStaysFit(s, steps[0]);
      StageFitsOverRun(Apply(s, steps[0]), steps[1..], s');
    }
  }

  /**
    The write that ends a removal takes the row away.  The last plan change asked
    for the node, and is undone, exactly when the row was no longer pending removal.
   */
  lemma RowIsLostExactly(steps: seq<Step>, s: State, now: Time)
    requires Reaches(Initial, steps, s) && s.holder.Passing? && (s.holder.stage.Deleted? || s.holder.stage.Dropping?)
    ensures var n := s.holder.stage.n;
            var last := LastChange(SinceCopied(Initial, steps, s, n, []), n);
            && n in s.rows && n !in Apply(s, WriteRow(true, true, now)).rows
            && (!s.rows[n].status.PendingRemove? <==> last.Some? && Adds(last.value, n))
  {
    var (n, row) := (s.holder.stage.n, s.holder.stage.row);
    StageFitsOverRun(Initial, steps, s);
    assert Carries(s, n, row);
    CopyIsCurrentExactly(steps, s, n, row);
  }

  /**
    The retry metadata of a failure is written whatever the row has become.  It
    completes the row it was computed from when nothing has reset that row since
    the copy; otherwise it overwrites a reset, whether or not the status has come
    back, and a row that nobody has tried yet is put on the ladder or parked.
   */
  lemma RetryLandsExactly(steps: seq<Step>, s: State, now: Time)
    requires Reaches(Initial, steps, s) && s.holder.Passing? && s.holder.stage.Failing?
    ensures var Failing(n, row, retryable) := s.holder.stage;
            && n in s.rows
            && var (since, was) := (SinceCopied(Initial, steps, s, n, []), s.rows[n]);
            && var (failed, after) := (Failed(row, now, retryable), Apply(s, WriteRow(true, true, now)).rows[n]);
            && was == (if ResetSince(row, since, n) then Fresh(was.status) else row)
            && after == Row(was.status, failed.retryCount, failed.retryAt) && after.retryAt.Some?
            && (after == failed <==> !Overtaken(row.status, since, n))
  {
    var (n, row) := (s.holder.stage.n, s.holder.stage.row);
    assert Carries(s, n, row);
    CopyIsCurrentExactly(steps, s, n, row);
  }

  /**
    A row that came in since the copy, or was reset by anybody, is parked without an
    attempt of its own exactly when the failure of the copy was not retryable or the
    last of its attempts.
   */
  lemma ParkedUntriedExactly(steps: seq<Step>, s: State, now: Time)
    requires Reaches(Initial, steps, s) && s.holder.Passing? && s.holder.stage.Failing?
    requires Truncate(now) + Backoff(MAX_SYNC_RETRIES) < PARKED_RETRY_AT
    ensures var Failing(n, row, retryable) := s.holder.stage;
            && n in s.rows
            && var since := SinceCopied(Initial, steps, s, n, []);
            && var after := Apply(s, WriteRow(true, true, now)).rows[n];
            && (after.retryAt == Some(PARKED_RETRY_AT) <==> !retryable || row.retryCount == MAX_SYNC_RETRIES)
            && (ResetSince(row, since, n) ==> s.rows[n].retryCount == 0 && s.rows[n].retryAt.None?)
  {
    var (n, row) := (s.holder.stage.n, s.holder.stage.row);
    assert Carries(s, n, row);
    CopyIsCurrentExactly(steps, s, n, row);
    CountersStayCapped(Initial, steps, s);
  }

  /** It happens with the status back where it was: removed and wanted again between the failed call and the write. */
  lemma WantedAgainIsParked(s: State, n: NodeId) returns (steps: seq<Step>, s': State)
    requires s.holder.Nobody? && !s.deleted && n in s.rows && s.rows[n].status.PendingAdd?
    ensures Reaches(s, steps, s') && s'.holder.Nobody? && ApplyInTx({n}) in steps
    ensures n in s'.rows && s'.rows[n].status.PendingAdd? && s'.rows[n].retryAt == Some(PARKED_RETRY_AT)
  {
    var start := StartPass(false, [Task(n, s.rows[n])]);
    steps, s' := [start], Apply(s, start);
    assert Reaches(s', steps[1..], s');
    steps, s' := Then(s, steps, s', NextTask(true));
    steps, s' := Then(s, steps, s', Call(Fails(false, false)));
    steps, s' := Then(s, steps, s', ApplyInTx({}));
    steps, s' := Then(s, steps, s', ApplyInTx({n}));
    assert s'.rows[n] == Fresh(PendingAdd);
    ghost var upToHere := steps;
    assert ApplyInTx({n}) in upToHere;
    steps, s' := Then(s, steps, s', WriteRow(true, true, 0));
    steps, s' := Then(s, steps, s', EndPass);
  }

  /**
    Marking a node active is as blind: it overwrites a removal asked for meanwhile
    exactly when the last plan change since the copy does not want the node.
   */
  lemma RemovalIsLostExactly(steps: seq<Step>, s: State, now: Time)
    requires Reaches(Initial, steps, s) && s.holder.Passing? && s.holder.stage.Confirmed?
    ensures var n := s.holder.stage.n;
            var last := LastChange(SinceCopied(Initial, steps, s, n, []), n);
            && n in s.rows && Apply(s, WriteRow(true, true, now)).rows[n] == Fresh(Active)
            && (s.rows[n].status.PendingRemove? <==> last.Some? && Removes(last.value, n))
  {
    var (n, row) := (s.holder.stage.n, s.holder.stage.row);
    StageFitsOverRun(Initial, steps, s);
    assert Carries(s, n, row);
    CopyIsCurrentExactly(steps, s, n, row);
    TrackedOverRun(Initial, steps, s, n, []);
    WholeRowMoves(row, SinceCopied(Initial, steps, s, n, []), n);
    OvertakenIsMoved(row.status, SinceCopied(Initial, steps, s, n, []), n);
  }
}
