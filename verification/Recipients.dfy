/**
  The recipient state kept inside a broadcasts row.  Every function is one
  read-modify-write transaction over the recipient list; a recipient's id is its
  position.
 */
module Recipients {
  import opened Options

  type Time = int

  datatype Status = Pending | Sending | Sent | Blocked | Unreachable | Failed

  datatype Recipient = Recipient(telegramId: int, status: Status, attempts: nat, nextChunk: nat, updatedAt: Time)

  datatype CampaignStatus = Scheduled | Running | Completed | GivenUp | Canceled

  datatype Campaign = Campaign(status: CampaignStatus, snapshot: bool, recipients: seq<Recipient>)

  const DEFAULT_BATCH: nat := 100

  predicate Terminal(status: Status) {
    status in {Sent, Blocked, Unreachable, Failed}
  }

  // ----------------------------------------------------------- specification

  function NewRecipients(ids: seq<int>, now: Time): seq<Recipient> {
    seq(|ids|, i requires 0 <= i < |ids| => Recipient(ids[i], Pending, 0, 0, now))
  }

  /** SnapshotBroadcastRecipients: only the first call fixes the audience. */
  function TakeSnapshot(c: Campaign, ids: seq<int>, now: Time): Campaign {
    if c.snapshot then c else c.(snapshot := true, recipients := NewRecipients(ids, now))
  }

  function RecoveredOne(r: Recipient, before: Time, now: Time): Recipient {
    if r.status.Sending? && r.updatedAt < before then r.(status := Pending, updatedAt := now) else r
  }

  /** RecoverStaleBroadcastRecipients. */
  function Recovered(rs: seq<Recipient>, before: Time, now: Time): seq<Recipient> {
    seq(|rs|, i requires 0 <= i < |rs| => RecoveredOne(rs[i], before, now))
  }

  function PendingCount(rs: seq<Recipient>): nat {
    if rs == [] then 0
    else PendingCount(rs[..|rs| - 1]) + if rs[|rs| - 1].status.Pending? then 1 else 0
  }

  /** Recipient i is among the first `limit` pending ones. */
  predicate Claimable(rs: seq<Recipient>, limit: nat, i: nat)
    requires i < |rs|
  {
    rs[i].status.Pending? && PendingCount(rs[..i]) < limit
  }

  function ClaimedOne(r: Recipient, now: Time): Recipient {
    r.(status := Sending, attempts := r.attempts + 1, updatedAt := now)
  }

  /** ClaimBroadcastRecipients on a running campaign. */
  function Claimed(rs: seq<Recipient>, limit: nat, now: Time): seq<Recipient> {
    seq(|rs|, i requires 0 <= i < |rs| => if Claimable(rs, limit, i) then ClaimedOne(rs[i], now) else rs[i])
  }

  /** The lease guard: the caller's claim is still the recipient's latest and still open. */
  predicate HoldsLease(rs: seq<Recipient>, id: nat, attempt: nat) {
    id < |rs| && rs[id].status.Sending? && rs[id].attempts == attempt
  }

  /** FinishBroadcastRecipient under the guard. */
  function Finished(rs: seq<Recipient>, id: nat, attempt: nat, status: Status, now: Time): seq<Recipient> {
    if HoldsLease(rs, id, attempt) then rs[id := rs[id].(status := status, updatedAt := now)] else rs
  }

  /** UpdateBroadcastRecipientProgress under the same guard. */
  function Checkpointed(rs: seq<Recipient>, id: nat, attempt: nat, nextChunk: nat, now: Time): seq<Recipient> {
    if HoldsLease(rs, id, attempt) then rs[id := rs[id].(nextChunk := nextChunk, updatedAt := now)] else rs
  }

  function ResetOne(r: Recipient, now: Time): Recipient {
    if r.status in {Failed, Sending} then r.(status := Pending, updatedAt := now) else r
  }

  function ResetAll(rs: seq<Recipient>, now: Time): seq<Recipient> {
    seq(|rs|, i requires 0 <= i < |rs| => ResetOne(rs[i], now))
  }

  /** ResetBroadcastFailedRecipients reopens a terminal campaign in the same transaction. */
  function Reset(c: Campaign, now: Time): Campaign {
    Campaign(if c.status in {Completed, GivenUp, Canceled} then Running else c.status, c.snapshot, ResetAll(c.recipients, now))
  }

  /** CancelBroadcast leaves sending leases in place. */
  function CanceledCampaign(c: Campaign): Campaign {
    if c.status in {Scheduled, Running} then c.(status := Canceled) else c
  }

  function BatchSize(limit: int): nat {
    if limit <= 0 then DEFAULT_BATCH else limit
  }

  function Min(a: nat, b: nat): nat {
    if a < b then a else b
  }

  // ---------------------------------------------------------------- the code

  datatype WriteResult = Saved | Stale | NotFound | InvalidStatus

  /** Every id handed out comes once, with a copy of its row, under its own lease. */
  predicate HandedOut(rs: seq<Recipient>, ids: seq<nat>, claimed: seq<Recipient>) {
    && |claimed| == |ids|
    && (forall k :: 0 <= k < |ids| ==>
          ids[k] < |rs| && claimed[k] == rs[ids[k]] && HoldsLease(rs, ids[k], claimed[k].attempts))
    && (forall k, l :: 0 <= k < l < |ids| ==> ids[k] < ids[l])
  }

  /** Only this recipient differs, in its status, its progress and its time. */
  predicate OnlyRow(id: nat, rs: seq<Recipient>, rs': seq<Recipient>, status: Status, nextChunk: nat, now: Time)
    requires id < |rs|
  {
    && |rs'| == |rs| && (forall i :: 0 <= i < |rs| && i != id ==> rs'[i] == rs[i])
    && rs'[id] == Recipient(rs[id].telegramId, status, rs[id].attempts, nextChunk, now)
  }

  /** The recipient waits again, with its audience entry, attempts and progress. */
  predicate WaitsAgain(r: Recipient, r': Recipient, now: Time) {
    r' == Recipient(r.telegramId, Pending, r.attempts, r.nextChunk, now)
  }

  lemma HandOutOne(rs: seq<Recipient>, ids: seq<nat>, claimed: seq<Recipient>, i: nat, now: Time)
    requires HandedOut(rs, ids, claimed) && i < |rs| && forall k :: 0 <= k < |ids| ==> ids[k] < i
    ensures HandedOut(rs[i := ClaimedOne(rs[i], now)], ids + [i], claimed + [ClaimedOne(rs[i], now)])
  {
  }

  lemma CountOneMore(rs: seq<Recipient>, i: nat)
    requires i < |rs|
    ensures PendingCount(rs[..i + 1]) == PendingCount(rs[..i]) + if rs[i].status.Pending? then 1 else 0
  {
    assert rs[..i + 1][..i] == rs[..i];
  }

  lemma {:induction false} CountGrows(rs: seq<Recipient>, i: nat, j: nat)
    requires i <= j <= |rs|
    ensures PendingCount(rs[..i]) <= PendingCount(rs[..j])
    decreases j - i
  {
    if i < j {
      CountOneMore(rs, j - 1);
      CountGrows(rs, i, j - 1);
    }
  }

  class BroadcastStore {
    var status: CampaignStatus
    var taken: bool
    var recipients: seq<Recipient>

    constructor ()
      ensures State() == Campaign(Scheduled, false, [])
    {
      status, taken, recipients := Scheduled, false, [];
    }

    ghost function State(): Campaign
      reads this
    {
      Campaign(status, taken, recipients)
    }

    method Snapshot(ids: seq<int>, now: Time) returns (total: nat)
      modifies this
      ensures State() == TakeSnapshot(old(State()), ids, now) && total == |recipients|
      ensures old(taken) ==> State() == old(State())
      ensures !old(taken) ==>
                && taken && status == old(status) && |recipients| == |ids|
                && forall i :: 0 <= i < |ids| ==> recipients[i] == Recipient(ids[i], Pending, 0, 0, now)
    {
      if taken {
        return |recipients|;
      }
      taken := true;
      recipients := [];
      for i := 0 to |ids|
        invariant taken && recipients == NewRecipients(ids, now)[..i]
        invariant status == old(status)
      {
        recipients := recipients + [Recipient(ids[i], Pending, 0, 0, now)];
      }
      total := |recipients|;
    }

    method RecoverStale(before: Time, now: Time)
      modifies `recipients
      ensures recipients == Recovered(old(recipients), before, now)
      ensures forall id: nat, attempt: nat ::
                HoldsLease(recipients, id, attempt) <==>
                  HoldsLease(old(recipients), id, attempt) && old(recipients)[id].updatedAt >= before
      ensures |recipients| == |old(recipients)|
      ensures forall i :: 0 <= i < |recipients| ==>
                if old(recipients)[i].status.Sending? && !recipients[i].status.Sending? then WaitsAgain(old(recipients)[i], recipients[i], now)
                else recipients[i] == old(recipients)[i]
    {
      ghost var start := recipients;
      for i := 0 to |recipients|
        invariant |recipients| == |start|
        invariant forall j :: 0 <= j < |start| ==> recipients[j] == if j < i then RecoveredOne(start[j], before, now) else start[j]
      {
        if recipients[i].status.Sending? && recipients[i].updatedAt < before {
          recipients := recipients[i := recipients[i].(status := Pending, updatedAt := now)];
        }
      }
    }

    /** Claims a batch; the copies handed out carry the attempt and the progress. */
    method Claim(limit: int, now: Time) returns (ids: seq<nat>, claimed: seq<Recipient>)
      modifies `recipients
      ensures recipients == if status.Running? then Claimed(old(recipients), BatchSize(limit), now) else old(recipients)
      ensures HandedOut(recipients, ids, claimed)
      ensures |recipients| == |old(recipients)|
      ensures forall i :: 0 <= i < |recipients| ==>
                if i in ids then
                  && old(recipients)[i].status.Pending?
                  && recipients[i] == Recipient(old(recipients)[i].telegramId, Sending, old(recipients)[i].attempts + 1,
                                                old(recipients)[i].nextChunk, now)
                else recipients[i] == old(recipients)[i]
      ensures status.Running? ==>
                forall i :: 0 <= i < |recipients| && i !in ids && old(recipients)[i].status.Pending? ==>
                  |ids| == (if limit <= 0 then 100 else limit) && forall k :: 0 <= k < |ids| ==> ids[k] < i
      ensures forall i: nat :: i in ids <==> status.Running? && i < |old(recipients)| && Claimable(old(recipients), BatchSize(limit), i)
      ensures |ids| <= BatchSize(limit)
    {
      ids, claimed := [], [];
      if status != Running {
        return;
      }
      ghost var before := recipients;
      for i := 0 to |recipients|
        invariant |recipients| == |before|
        invariant forall j :: 0 <= j < |before| ==>
                    recipients[j] == if j < i && Claimable(before, BatchSize(limit), j) then ClaimedOne(before[j], now) else before[j]
        invariant |ids| == Min(PendingCount(before[..i]), BatchSize(limit))
        invariant HandedOut(recipients, ids, claimed) && forall k :: 0 <= k < |ids| ==> ids[k] < i
        invariant forall j :: j in ids <==> 0 <= j < i && Claimable(before, BatchSize(limit), j)
      {
        CountOneMore(before, i);
        if |ids| < BatchSize(limit) && recipients[i].status.Pending? {
          HandOutOne(recipients, ids, claimed, i, now);
          recipients := recipients[i := ClaimedOne(recipients[i], now)];
          ids, claimed := ids + [i], claimed + [recipients[i]];
        }
      }
      assert before[..|before|] == before;
      ghost var full := BatchSize(limit);
      forall i | 0 <= i < |before| && i !in ids && before[i].status.Pending?
        ensures |ids| == full && forall k :: 0 <= k < |ids| ==> ids[k] < i
      {
        CountGrows(before, i, |before|);
        forall k | 0 <= k < |ids|
          ensures ids[k] < i
        {
          assert ids[k] in ids && Claimable(before, full, ids[k]);
          if ids[k] > i {
            CountGrows(before, i, ids[k]);
          }
        }
      }
    }

    method Finish(id: nat, expectedAttempts: nat, outcome: Status, now: Time) returns (result: WriteResult)
      modifies `recipients
      ensures result.InvalidStatus? <==> outcome in {Pending, Sending}
      ensures result.Saved? <==> Terminal(outcome) && HoldsLease(old(recipients), id, expectedAttempts)
      ensures result.NotFound? <==> Terminal(outcome) && id >= |old(recipients)|
      ensures recipients == if Terminal(outcome) then Finished(old(recipients), id, expectedAttempts, outcome, now) else old(recipients)
      ensures if result.Saved? then id < |old(recipients)| && OnlyRow(id, old(recipients), recipients, outcome, old(recipients)[id].nextChunk, now)
              else recipients == old(recipients)
    {
      if !Terminal(outcome) {
        return InvalidStatus;
      }
      if id >= |recipients| {
        return NotFound;
      }
      if recipients[id].status != Sending || recipients[id].attempts != expectedAttempts {
        return Stale;
      }
      recipients := recipients[id := recipients[id].(status := outcome, updatedAt := now)];
      return Saved;
    }

    method UpdateProgress(id: nat, expectedAttempts: nat, nextChunk: nat, now: Time) returns (result: WriteResult)
      modifies `recipients
      ensures result.Saved? <==> HoldsLease(old(recipients), id, expectedAttempts)
      ensures result.NotFound? <==> id >= |old(recipients)|
      ensures recipients == Checkpointed(old(recipients), id, expectedAttempts, nextChunk, now)
      ensures if result.Saved? then id < |old(recipients)| && OnlyRow(id, old(recipients), recipients, Sending, nextChunk, now)
              else recipients == old(recipients)
    {
      if id >= |recipients| {
        return NotFound;
      }
      if recipients[id].status != Sending || recipients[id].attempts != expectedAttempts {
        return Stale;
      }
      recipients := recipients[id := recipients[id].(nextChunk := nextChunk, updatedAt := now)];
      return Saved;
    }

    method ResetFailed(now: Time)
      modifies this
      ensures State() == Reset(old(State()), now)
      ensures |recipients| == |old(recipients)|
      ensures forall i :: 0 <= i < |recipients| ==>
                if old(recipients)[i].status in {Failed, Sending} then WaitsAgain(old(recipients)[i], recipients[i], now)
                else recipients[i] == old(recipients)[i]
      ensures status == (if old(status) in {Completed, GivenUp, Canceled} then Running else old(status)) && taken == old(taken)
    {
      ghost var before := recipients;
      for i := 0 to |recipients|
        invariant |recipients| == |before|
        invariant forall j :: 0 <= j < |before| ==> recipients[j] == if j < i then ResetOne(before[j], now) else before[j]
        invariant status == old(status) && taken == old(taken)
      {
        if recipients[i].status == Failed || recipients[i].status == Sending {
          recipients := recipients[i := recipients[i].(status := Pending, updatedAt := now)];
        }
      }
      if status in {Completed, GivenUp, Canceled} {
        status := Running;
      }
    }

    method Cancel() returns (canceled: bool)
      modifies `status
      ensures State() == CanceledCampaign(old(State()))
      ensures canceled <==> old(status) in {Scheduled, Running}
      ensures status == (if canceled then Canceled else old(status)) && recipients == old(recipients)
    {
      canceled := status in {Scheduled, Running};
      if canceled {
        status := Canceled;
      }
    }

    /** finishCampaign: counts the outcomes and decides where the campaign goes. */
    method FinishCampaign(loaded: CampaignStatus) returns (total: nat, terminal: nat)
      modifies `status
      ensures total == |recipients|
      ensures total == terminal <==> forall r :: r in recipients ==> Terminal(r.status)
      ensures status == if loaded.Canceled? then Canceled
                        else if forall r :: r in recipients ==> Terminal(r.status) then Completed else Running
    {
      total, terminal := 0, 0;
      for i := 0 to |recipients|
        invariant total == i && terminal <= total
        invariant total == terminal <==> forall j :: 0 <= j < i ==> Terminal(recipients[j].status)
      {
        total := total + 1;
        if Terminal(recipients[i].status) {
          terminal := terminal + 1;
        }
      }
      status := if loaded.Canceled? then Canceled else if total > terminal then Running else Completed;
    }
  }
}
