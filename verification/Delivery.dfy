/**
  Durable delivery of one broadcast: the recipient state, the workers that hold
  claims on it, and what has really reached the recipients.  Workers can crash or
  stall at any point, leases are recovered and reset behind their backs, and any
  number of them interleave.
 */
module Delivery {
  import opened Options
  import opened Recipients

  /** A claim: the recipient and the attempt number it was handed out with. */
  datatype Lease = Lease(id: nat, attempt: nat)

  /** What the worker does next with chunk `next`. */
  datatype Phase = Sending | Checkpointing | Finishing(outcome: Status)

  /** `start` is the NextChunk the claim came with. */
  datatype Worker = Worker(start: nat, next: nat, phase: Phase)

  /**
    `issued` and `recorded` are the histories of claims handed out and of outcomes
    recorded; `delivered` holds the chunks that reached a recipient.
   */
  datatype State = State(campaign: Campaign, workers: map<Lease, Worker>,
                         issued: seq<Lease>, recorded: seq<Lease>, delivered: set<(nat, nat)>)

  datatype Step =
    | Audience(ids: seq<int>, now: Time)
    | ClaimBatch(order: seq<nat>, limit: nat, now: Time)
    | RecoverStale(before: Time, now: Time)
    | ResetFailed(now: Time)
    | SetStatus(status: CampaignStatus)      // finishCampaign, scheduleRetry, ClaimBroadcast
    | Cancel
    | Send(l: Lease, reported: bool)         // the chunk arrives; the reply may be lost
    | SaveProgress(l: Lease, dbOk: bool, now: Time)
    | AllSent(l: Lease)
    | Fail(l: Lease, outcome: Status)        // blocked, unreachable, out of attempts, or a panic
    | Record(l: Lease, dbOk: bool, now: Time)
    | Abandon(l: Lease)

  const Initial := State(Campaign(Scheduled, false, []), map[], [], [], {})

  // ------------------------------------------------------------------- steps

  predicate Working(s: State, l: Lease, phase: Phase) {
    l in s.workers && s.workers[l].phase == phase
  }

  /** `chunks` is the number of chunks splitMessage makes of the campaign's text. */
  ghost predicate Enabled(s: State, chunks: nat, step: Step) {
    match step
    case ClaimBatch(order, limit, _) =>
      && s.campaign.status.Running?
      && (forall k :: 0 <= k < |order| ==> order[k] < |s.campaign.recipients|)
      && (forall k, m :: 0 <= k < m < |order| ==> order[k] < order[m])
      && (forall i: nat :: i in order <==> i < |s.campaign.recipients| && Claimable(s.campaign.recipients, limit, i))
    case Send(l, _) => Working(s, l, Phase.Sending) && s.workers[l].next < chunks
    case SaveProgress(l, _, _) => Working(s, l, Checkpointing)
    case AllSent(l) => Working(s, l, Phase.Sending) && s.workers[l].next >= chunks
    case Fail(l, outcome) =>
      && l in s.workers && !s.workers[l].phase.Finishing?
      && outcome in {Blocked, Unreachable, Failed}
    case Record(l, _, _) => l in s.workers && s.workers[l].phase.Finishing?
    case _ => true
  }

  function WithRecipients(s: State, rs: seq<Recipient>): State {
    s.(campaign := s.campaign.(recipients := rs))
  }

  function LeaseOf(rs: seq<Recipient>, i: nat): Lease
    requires i < |rs|
  {
    Lease(i, rs[i].attempts)
  }

  /** processRecipient's first line: a progress beyond the text means nothing is left. */
  function StartAt(nextChunk: nat, chunks: nat): (start: nat)
    ensures start <= nextChunk && start <= chunks && (start == nextChunk || start == chunks)
  {
    if nextChunk > chunks then chunks else nextChunk
  }

  ghost function AfterClaim(s: State, chunks: nat, order: seq<nat>, limit: nat, now: Time): State
    requires forall k :: 0 <= k < |order| ==> order[k] < |s.campaign.recipients|
  {
    var rs := Claimed(s.campaign.recipients, limit, now);
    var leases := seq(|order|, k requires 0 <= k < |order| => LeaseOf(rs, order[k]));
    State(s.campaign.(recipients := rs),
          s.workers + map l | l in leases :: Worker(rs[l.id].nextChunk, StartAt(rs[l.id].nextChunk, chunks), Phase.Sending),
          s.issued + leases, s.recorded, s.delivered)
  }

  ghost function Apply(s: State, chunks: nat, step: Step): State
    requires Enabled(s, chunks, step)
  {
    var c := s.campaign;
    match step
    case Audience(ids, now) => s.(campaign := TakeSnapshot(c, ids, now))
    case ClaimBatch(order, limit, now) => AfterClaim(s, chunks, order, limit, now)
    case RecoverStale(before, now) => WithRecipients(s, Recovered(c.recipients, before, now))
    case ResetFailed(now) => s.(campaign := Reset(c, now))
    case SetStatus(status) => s.(campaign := c.(status := status))
    case Cancel => s.(campaign := CanceledCampaign(c))
    case Send(l, reported) =>
      s.(delivered := s.delivered + {(l.id, s.workers[l].next)},
         workers := if reported then s.workers[l := s.workers[l].(phase := Checkpointing)] else s.workers)
    case SaveProgress(l, dbOk, now) =>
      var w := s.workers[l];
      if dbOk && !HoldsLease(c.recipients, l.id, l.attempt) then s.(workers := s.workers - {l})
      else
        WithRecipients(s, if dbOk then Checkpointed(c.recipients, l.id, l.attempt, w.next + 1, now) else c.recipients)
        .(workers := s.workers[l := Worker(w.start, w.next + 1, Phase.Sending)])
    case AllSent(l) => s.(workers := s.workers[l := s.workers[l].(phase := Finishing(Sent))])
    case Fail(l, outcome) => s.(workers := s.workers[l := s.workers[l].(phase := Finishing(outcome))])
    case Record(l, dbOk, now) =>
      var held := dbOk && HoldsLease(c.recipients, l.id, l.attempt);
      var rs := if held then Finished(c.recipients, l.id, l.attempt, s.workers[l].phase.outcome, now) else c.recipients;
      WithRecipients(s, rs)
      .(workers := s.workers - {l}, recorded := if held then s.recorded + [l] else s.recorded)
    case Abandon(l) => s.(workers := s.workers - {l})
  }

  // --------------------------------------------------------------- invariant

  predicate Holds(s: State, l: Lease) {
    HoldsLease(s.campaign.recipients, l.id, l.attempt)
  }

  /** The claim was handed out: its attempt number is not in the future. */
  predicate Past(rs: seq<Recipient>, l: Lease) {
    l.id < |rs| && l.attempt <= rs[l.id].attempts
  }

  ghost predicate DeliveredBelow(s: State, id: nat, n: nat) {
    forall j :: 0 <= j < n ==> (id, j) in s.delivered
  }

  ghost predicate RecipientValid(s: State, chunks: nat, i: nat)
    requires i < |s.campaign.recipients|
  {
    var r := s.campaign.recipients[i];
    && r.nextChunk <= chunks
    && DeliveredBelow(s, i, r.nextChunk)
    && (r.status.Sent? ==> DeliveredBelow(s, i, chunks))
  }

  ghost predicate WorkerValid(s: State, chunks: nat, l: Lease)
    requires l in s.workers
  {
    var w := s.workers[l];
    && Past(s.campaign.recipients, l)
    && w.start <= w.next <= chunks
    && DeliveredBelow(s, l.id, w.next)
    && (w.phase.Checkpointing? ==> w.next < chunks && (l.id, w.next) in s.delivered)
    && (w.phase.Finishing? ==> Terminal(w.phase.outcome) && (w.phase.outcome.Sent? ==> w.next == chunks))
    && (Holds(s, l) ==> w.start <= s.campaign.recipients[l.id].nextChunk <= w.next)
  }

  predicate NoDuplicates(ls: seq<Lease>) {
    forall i, j :: 0 <= i < j < |ls| ==> ls[i] != ls[j]
  }

  ghost predicate HistoryValid(s: State) {
    && (!s.campaign.snapshot ==> s.campaign.recipients == [])
    && NoDuplicates(s.issued) && NoDuplicates(s.recorded)
    && (forall l :: l in s.issued ==> Past(s.campaign.recipients, l))
    && (forall l :: l in s.recorded ==> Past(s.campaign.recipients, l) && !Holds(s, l))
  }

  ghost predicate Inv(s: State, chunks: nat) {
    && (forall i :: 0 <= i < |s.campaign.recipients| ==> RecipientValid(s, chunks, i))
    && (forall l :: l in s.workers ==> WorkerValid(s, chunks, l))
    && HistoryValid(s)
  }

  /**
    What every step does to a recipient: its audience entry stays, its attempts
    and progress never go back, a settled one stays settled, and an open lease
    appears only together with a new attempt number.
   */
  predicate Evolves(r: Recipient, r': Recipient) {
    && r'.telegramId == r.telegramId
    && r.attempts <= r'.attempts
    && r.nextChunk <= r'.nextChunk
    && (r.status in {Sent, Blocked, Unreachable} ==> r'.status == r.status)
    && (r'.status.Sending? ==> (r.status.Sending? && r'.attempts == r.attempts) || r'.attempts > r.attempts)
  }

  ghost predicate AllEvolve(s: State, s': State) {
    && (s.campaign.snapshot ==> s'.campaign.snapshot && |s'.campaign.recipients| == |s.campaign.recipients|)
    && |s.campaign.recipients| <= |s'.campaign.recipients|
    && forall i :: 0 <= i < |s.campaign.recipients| ==> Evolves(s.campaign.recipients[i], s'.campaign.recipients[i])
  }

  lemma StepEvolves(s: State, chunks: nat, step: Step)
    requires Inv(s, chunks) && Enabled(s, chunks, step)
    ensures AllEvolve(s, Apply(s, chunks, step))
  {
    if step.SaveProgress? {
      assert WorkerValid(s, chunks, step.l);
    }
  }

  /** A claim that was lost is lost for good. */
  lemma LostStaysLost(rs: seq<Recipient>, rs': seq<Recipient>, l: Lease)
    requires Past(rs, l) && !HoldsLease(rs, l.id, l.attempt)
    requires |rs| <= |rs'| && Evolves(rs[l.id], rs'[l.id])
    ensures Past(rs', l) && !HoldsLease(rs', l.id, l.attempt)
  {
  }

  lemma HistoryStep(s: State, chunks: nat, step: Step)
    requires Inv(s, chunks) && Enabled(s, chunks, step) && !step.ClaimBatch?
    ensures HistoryValid(Apply(s, chunks, step))
  {
    var s' := Apply(s, chunks, step);
    StepEvolves(s, chunks, step);
    if step.Record? {
      assert WorkerValid(s, chunks, step.l);
    }
    forall l | l in s.recorded
      ensures Past(s'.campaign.recipients, l) && !Holds(s', l)
    {
      LostStaysLost(s.campaign.recipients, s'.campaign.recipients, l);
    }
  }

  /** Steps that touch no worker keep every worker's and recipient's part. */
  lemma CampaignStep(s: State, chunks: nat, step: Step)
    requires Inv(s, chunks) && Enabled(s, chunks, step)
    requires step.Audience? || step.RecoverStale? || step.ResetFailed? || step.SetStatus? || step.Cancel?
    ensures Inv(Apply(s, chunks, step), chunks)
  {
    var s' := Apply(s, chunks, step);
    HistoryStep(s, chunks, step);
    forall i | 0 <= i < |s'.campaign.recipients|
      ensures RecipientValid(s', chunks, i)
    {
      if i < |s.campaign.recipients| {
        assert RecipientValid(s, chunks, i);
      }
    }
    forall l | l in s'.workers
      ensures WorkerValid(s', chunks, l)
    {
      assert WorkerValid(s, chunks, l);
    }
  }

  lemma WorkerStep(s: State, chunks: nat, step: Step)
    requires Inv(s, chunks) && Enabled(s, chunks, step)
    requires step.Send? || step.SaveProgress? || step.AllSent? || step.Fail? || step.Record? || step.Abandon?
    ensures Inv(Apply(s, chunks, step), chunks)
  {
    var s' := Apply(s, chunks, step);
    HistoryStep(s, chunks, step);
    assert step.l in s.workers ==> WorkerValid(s, chunks, step.l);
    forall i | 0 <= i < |s'.campaign.recipients|
      ensures RecipientValid(s', chunks, i)
    {
      assert RecipientValid(s, chunks, i);
    }
    forall l | l in s'.workers
      ensures WorkerValid(s', chunks, l)
    {
      assert WorkerValid(s, chunks, l);
    }
  }

  lemma ClaimKeepsRecipients(s: State, chunks: nat, order: seq<nat>, limit: nat, now: Time)
    requires Inv(s, chunks) && Enabled(s, chunks, ClaimBatch(order, limit, now))
    ensures var s' := Apply(s, chunks, ClaimBatch(order, limit, now));
            forall i :: 0 <= i < |s'.campaign.recipients| ==> RecipientValid(s', chunks, i)
  {
    var s' := Apply(s, chunks, ClaimBatch(order, limit, now));
    forall i | 0 <= i < |s'.campaign.recipients|
      ensures RecipientValid(s', chunks, i)
    {
      assert RecipientValid(s, chunks, i);
    }
  }

  /** The new claims start where their recipients stand; the old ones are untouched. */
  lemma ClaimKeepsWorkers(s: State, chunks: nat, order: seq<nat>, limit: nat, now: Time)
    requires Inv(s, chunks) && Enabled(s, chunks, ClaimBatch(order, limit, now))
    ensures var s' := Apply(s, chunks, ClaimBatch(order, limit, now));
            forall l :: l in s'.workers ==> WorkerValid(s', chunks, l)
  {
    var s' := Apply(s, chunks, ClaimBatch(order, limit, now));
    forall l | l in s'.workers
      ensures WorkerValid(s', chunks, l)
    {
      if l.id in order && l == LeaseOf(s'.campaign.recipients, l.id) {
        assert RecipientValid(s, chunks, l.id);
      } else {
        assert WorkerValid(s, chunks, l);
      }
    }
  }

  lemma ClaimStep(s: State, chunks: nat, order: seq<nat>, limit: nat, now: Time)
    requires Inv(s, chunks) && Enabled(s, chunks, ClaimBatch(order, limit, now))
    ensures Inv(Apply(s, chunks, ClaimBatch(order, limit, now)), chunks)
  {
    ClaimKeepsRecipients(s, chunks, order, limit, now);
    ClaimKeepsWorkers(s, chunks, order, limit, now);
    ClaimHistory(s, chunks, order, limit, now);
  }

  lemma ClaimHistory(s: State, chunks: nat, order: seq<nat>, limit: nat, now: Time)
    requires Inv(s, chunks) && Enabled(s, chunks, ClaimBatch(order, limit, now))
    ensures HistoryValid(Apply(s, chunks, ClaimBatch(order, limit, now)))
  {
    var s' := Apply(s, chunks, ClaimBatch(order, limit, now));
    var rs, rs' := s.campaign.recipients, s'.campaign.recipients;
    forall l | l in s.recorded
      ensures Past(rs', l) && !Holds(s', l)
    {
      LostStaysLost(rs, rs', l);
    }
    assert forall k :: 0 <= k < |order| ==> order[k] in order;
    NewLeasesAreNew(rs, rs', s.issued, order);
  }

  /** Leases with an attempt number beyond every earlier one repeat none of them. */
  lemma NewLeasesAreNew(rs: seq<Recipient>, rs': seq<Recipient>, issued: seq<Lease>, order: seq<nat>)
    requires |rs'| == |rs|
    requires forall i :: 0 <= i < |rs| ==> rs[i].attempts <= rs'[i].attempts
    requires forall k :: 0 <= k < |order| ==> order[k] < |rs| && rs[order[k]].attempts < rs'[order[k]].attempts
    requires forall k, m :: 0 <= k < m < |order| ==> order[k] < order[m]
    requires NoDuplicates(issued) && forall l :: l in issued ==> Past(rs, l)
    ensures var added := seq(|order|, k requires 0 <= k < |order| => LeaseOf(rs', order[k]));
            NoDuplicates(issued + added) && forall l :: l in issued + added ==> Past(rs', l)
  {
    var added := seq(|order|, k requires 0 <= k < |order| => LeaseOf(rs', order[k]));
    assert forall i :: 0 <= i < |issued| ==> issued[i] in issued;
    assert forall i, k :: 0 <= i < |issued| && 0 <= k < |added| ==> issued[i] != added[k];
    assert forall k, m :: 0 <= k < m < |added| ==> added[k] != added[m];
  }

  lemma InvPreserved(s: State, chunks: nat, step: Step)
    requires Inv(s, chunks) && Enabled(s, chunks, step)
    ensures Inv(Apply(s, chunks, step), chunks)
  {
    match step
    case ClaimBatch(order, limit, now) => ClaimStep(s, chunks, order, limit, now);
    case Audience(_, _) => CampaignStep(s, chunks, step);
    case RecoverStale(_, _) => CampaignStep(s, chunks, step);
    case ResetFailed(_) => CampaignStep(s, chunks, step);
    case SetStatus(_) => CampaignStep(s, chunks, step);
    case Cancel => CampaignStep(s, chunks, step);
    case _ => WorkerStep(s, chunks, step);
  }

  // ------------------------------------------------------ what the steps hand on

  /** A claim comes with its recipient's progress, under a new attempt number. */
  lemma ClaimStartsAtProgress(s: State, chunks: nat, order: seq<nat>, limit: nat, now: Time, i: nat)
    requires Inv(s, chunks) && Enabled(s, chunks, ClaimBatch(order, limit, now)) && i in order
    ensures i < |s.campaign.recipients|
    ensures var (s', r) := (Apply(s, chunks, ClaimBatch(order, limit, now)), s.campaign.recipients[i]);
            var l := Lease(i, r.attempts + 1);
            && Holds(s', l) && l in s'.issued && l in s'.workers
            && s'.workers[l] == Worker(r.nextChunk, r.nextChunk, Phase.Sending)
  {
    assert RecipientValid(s, chunks, i);
    var s' := Apply(s, chunks, ClaimBatch(order, limit, now));
    var rs := s'.campaign.recipients;
    var leases := seq(|order|, k requires 0 <= k < |order| => LeaseOf(rs, order[k]));
    var k :| 0 <= k < |order| && order[k] == i;
    assert leases[k] == Lease(i, s.campaign.recipients[i].attempts + 1);
    assert leases[k] in leases;
  }

  /** A checkpoint under the lease saves the progress the worker goes on with; without the lease the worker ends and nothing changes. */
  lemma CheckpointSavesProgress(s: State, chunks: nat, l: Lease, now: Time)
    requires Enabled(s, chunks, SaveProgress(l, true, now))
    ensures var s' := Apply(s, chunks, SaveProgress(l, true, now));
            if Holds(s, l) then
              && Holds(s', l) && l in s'.workers && s'.workers[l].next == s.workers[l].next + 1
              && s'.campaign.recipients[l.id].nextChunk == s'.workers[l].next
            else s'.campaign == s.campaign && l !in s'.workers
  {
  }

  /** An outcome under the lease is the recipient's status from then on; without it nothing changes. */
  lemma RecordWritesOutcome(s: State, chunks: nat, l: Lease, now: Time)
    requires Enabled(s, chunks, Record(l, true, now))
    ensures var s' := Apply(s, chunks, Record(l, true, now));
            && l !in s'.workers
            && if Holds(s, l) then s'.campaign.recipients[l.id].status == s.workers[l].phase.outcome && s'.recorded == s.recorded + [l]
               else s'.campaign == s.campaign && s'.recorded == s.recorded
  {
  }

  // ---------------------------------------------------------------- all runs

  ghost predicate Reaches(s: State, chunks: nat, steps: seq<Step>, s': State)
    decreases |steps|
  {
    if steps == [] then s' == s
    else Enabled(s, chunks, steps[0]) && Reaches(Apply(s, chunks, steps[0]), chunks, steps[1..], s')
  }

  /** Along every run the invariant holds and recipients only evolve. */
  lemma {:induction false} Runs(s: State, chunks: nat, steps: seq<Step>, s': State)
    requires Inv(s, chunks) && Reaches(s, chunks, steps, s')
    ensures Inv(s', chunks)
    ensures |s.campaign.recipients| <= |s'.campaign.recipients|
    ensures s.campaign.snapshot ==> |s'.campaign.recipients| == |s.campaign.recipients|
    ensures forall i :: 0 <= i < |s.campaign.recipients| ==>
              var (r, r') := (s.campaign.recipients[i], s'.campaign.recipients[i]);
              && r'.telegramId == r.telegramId && r.attempts <= r'.attempts && r.nextChunk <= r'.nextChunk
              && (r.status in {Sent, Blocked, Unreachable} ==> r'.status == r.status)
    ensures forall l :: l in s.issued && !Holds(s, l) ==> !Holds(s', l)
    decreases |steps|
  {
    if steps != [] {
      var m := Apply(s, chunks, steps[0]);
      InvPreserved(s, chunks, steps[0]);
      StepEvolves(s, chunks, steps[0]);
      IssuedStays(s, chunks, steps[0]);
      Runs(m, chunks, steps[1..], s');
      forall l | l in s.issued && !Holds(s, l)
        ensures !Holds(s', l)
      {
        LostStaysLost(s.campaign.recipients, m.campaign.recipients, l);
      }
    }
  }

  lemma IssuedStays(s: State, chunks: nat, step: Step)
    requires Enabled(s, chunks, step)
    ensures forall l :: l in s.issued ==> l in Apply(s, chunks, step).issued
  {
  }

  /**
    Lease fencing over every run: no claim is handed out twice and at most one
    outcome is recorded per claim.  A claim that was recovered, reset, settled or
    superseded is fenced for good: its worker can neither finish nor checkpoint.
   */
  lemma LeaseFencing(chunks: nat, before: seq<Step>, s: State, after: seq<Step>, s': State, l: Lease)
    requires Reaches(Initial, chunks, before, s) && Reaches(s, chunks, after, s')
    ensures NoDuplicates(s'.issued) && NoDuplicates(s'.recorded)
    ensures l in s.issued && !Holds(s, l) ==> Fenced(s'.campaign.recipients, l)
  {
    Runs(Initial, chunks, before, s);
    Runs(s, chunks, after, s');
  }

  /** Neither writing an outcome nor a checkpoint under this claim changes anything. */
  ghost predicate Fenced(rs: seq<Recipient>, l: Lease) {
    && (forall outcome, now :: Finished(rs, l.id, l.attempt, outcome, now) == rs)
    && (forall next, now :: Checkpointed(rs, l.id, l.attempt, next, now) == rs)
  }

  /**
    Delivery over every run: the audience is fixed by the first snapshot, sent,
    blocked and unreachable are final even under retries, progress never goes
    back nor past the text, every chunk below it arrived, and sent means all did.
   */
  lemma DeliveryIsDurable(chunks: nat, before: seq<Step>, s: State, after: seq<Step>, s': State, i: nat)
    requires Reaches(Initial, chunks, before, s) && Reaches(s, chunks, after, s')
    requires i < |s.campaign.recipients|
    ensures |s'.campaign.recipients| == |s.campaign.recipients|
    ensures var (r, r') := (s.campaign.recipients[i], s'.campaign.recipients[i]);
            && r'.telegramId == r.telegramId
            && (r.status in {Sent, Blocked, Unreachable} ==> r'.status == r.status)
            && r.nextChunk <= r'.nextChunk <= chunks
            && DeliveredBelow(s', i, r'.nextChunk)
            && (r'.status.Sent? ==> DeliveredBelow(s', i, chunks))
  {
    Runs(Initial, chunks, before, s);
    Runs(s, chunks, after, s');
    assert RecipientValid(s', chunks, i);
  }

  /** A claim sends only chunks at or above the progress it was given, and below it all had arrived. */
  lemma ClaimsResume(chunks: nat, steps: seq<Step>, s: State, l: Lease, reported: bool)
    requires Reaches(Initial, chunks, steps, s) && Enabled(s, chunks, Send(l, reported))
    ensures Apply(s, chunks, Send(l, reported)).delivered == s.delivered + {(l.id, s.workers[l].next)}
    ensures s.workers[l].start <= s.workers[l].next < chunks
    ensures DeliveredBelow(s, l.id, s.workers[l].next)
  {
    Runs(Initial, chunks, steps, s);
    assert WorkerValid(s, chunks, l);
  }
}
