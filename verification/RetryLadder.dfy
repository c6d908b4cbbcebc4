/**
  The retry ladder of a pending row: how many failed attempts it can see, over
  how long, where it ends, and which rows a node's recovery releases.
 */
module RetryLadder {
  import opened Options
  import opened Bindings

  /** One failed attempt: when it happened and whether the error was retryable. */
  datatype Failure = Failure(at: Time, retryable: bool)

  /**
    A run of failures of one row with no status transition in between: each
    attempt happens at a moment when the row is due.
   */
  ghost predicate FailureRun(row: Row, fs: seq<Failure>)
    decreases |fs|
  {
    fs == [] ||
    (Due(row, fs[0].at) && FailureRun(Failed(row, fs[0].at, fs[0].retryable), fs[1..]))
  }

  function AfterFailures(row: Row, fs: seq<Failure>): Row
    decreases |fs|
  {
    if fs == [] then row else AfterFailures(Failed(row, fs[0].at, fs[0].retryable), fs[1..])
  }

  predicate Parked(row: Row) {
    row.retryAt == Some(PARKED_RETRY_AT)
  }

  /** Minutes of backoff from the given rung up to the cap. */
  function LadderMinutes(retryCount: nat): nat
    decreases MAX_SYNC_RETRIES - retryCount
  {
    if retryCount >= MAX_SYNC_RETRIES then 0
    else Backoff(retryCount) / 60 + LadderMinutes(retryCount + 1)
  }

  ghost predicate BeforeParkingDate(fs: seq<Failure>) {
    forall i :: 0 <= i < |fs| ==> Truncate(fs[i].at) < PARKED_RETRY_AT
  }

  /** A parked row is selected by no scan and so sees no further attempt. */
  lemma ParkedSeesNothing(row: Row, fs: seq<Failure>)
    requires Parked(row) && BeforeParkingDate(fs) && FailureRun(row, fs)
    ensures fs == []
  {
  }

  /** The ladder's bound, from any rung: attempts left, and the counter's cap. */
  lemma {:induction false} LadderBound(row: Row, fs: seq<Failure>)
    requires row.retryCount <= MAX_SYNC_RETRIES
    requires BeforeParkingDate(fs) && FailureRun(row, fs)
    ensures |fs| <= MAX_SYNC_RETRIES + 1 - row.retryCount
    ensures AfterFailures(row, fs).retryCount <= MAX_SYNC_RETRIES
    ensures AfterFailures(row, fs).status == row.status
    decreases |fs|
  {
    if fs != [] {
      var next := Failed(row, fs[0].at, fs[0].retryable);
      assert forall i :: 0 <= i < |fs[1..]| ==> fs[1..][i] == fs[i + 1];
      if Parked(next) {
        ParkedSeesNothing(next, fs[1..]);
      }
      LadderBound(next, fs[1..]);
    }
  }

  /** A run that uses every attempt left ends parked and takes the whole ladder. */
  lemma {:induction false} FullLadder(row: Row, fs: seq<Failure>)
    requires row.retryCount <= MAX_SYNC_RETRIES
    requires BeforeParkingDate(fs) && FailureRun(row, fs)
    requires |fs| == MAX_SYNC_RETRIES + 1 - row.retryCount
    ensures Parked(AfterFailures(row, fs))
    ensures Truncate(fs[|fs| - 1].at) - Truncate(fs[0].at) >= 60 * LadderMinutes(row.retryCount)
    decreases |fs|
  {
    var next := Failed(row, fs[0].at, fs[0].retryable);
    assert forall i :: 0 <= i < |fs[1..]| ==> fs[1..][i] == fs[i + 1];
    if row.retryCount < MAX_SYNC_RETRIES {
      if Parked(next) {
        ParkedSeesNothing(next, fs[1..]);
      }
      LadderStep(row, next, fs);
    }
  }

  lemma {:induction false} LadderStep(row: Row, next: Row, fs: seq<Failure>)
    requires row.retryCount < MAX_SYNC_RETRIES && 1 < |fs| == MAX_SYNC_RETRIES + 1 - row.retryCount
    requires BeforeParkingDate(fs) && FailureRun(row, fs)
    requires next == Failed(row, fs[0].at, fs[0].retryable) && !Parked(next)
    ensures Parked(AfterFailures(row, fs))
    ensures Truncate(fs[|fs| - 1].at) - Truncate(fs[0].at) >= 60 * LadderMinutes(row.retryCount)
    decreases |fs|, 0
  {
    var rest := fs[1..];
    assert forall i :: 0 <= i < |rest| ==> rest[i] == fs[i + 1];
    assert Due(next, rest[0].at);
    FullLadder(next, rest);
  }

  /**
    A freshly transitioned row sees at most eleven failed attempts before it
    leaves every scan; eleven of them take at least 338 minutes and end parked.
   */
  lemma ElevenAttemptsIn338Minutes(status: Status, fs: seq<Failure>)
    requires BeforeParkingDate(fs) && FailureRun(Fresh(status), fs)
    ensures |fs| <= 11
    ensures |fs| == 11 ==>
              && Parked(AfterFailures(Fresh(status), fs))
              && Truncate(fs[10].at) - Truncate(fs[0].at) >= 338 * 60
  {
    LadderBound(Fresh(status), fs);
    if |fs| == 11 {
      FullLadder(Fresh(status), fs);
      LadderIs338();
    }
  }

  lemma LadderIs338()
    ensures LadderMinutes(0) == 338
  {
    assert LadderMinutes(7) == 180;
    assert LadderMinutes(4) == 315;
  }

  /** Minutes from the first failure to the k-th after it, on an untouched ladder. */
  const ELAPSED: seq<nat> := [0, 1, 3, 8, 23, 53, 98, 158, 218, 278, 338]

  lemma RungsAre(k: nat)
    requires k <= 10
    ensures LadderMinutes(k) == 338 - ELAPSED[k]
    decreases 10 - k
  {
    LadderIs338();
    assert LadderMinutes(7) == 180;
    assert LadderMinutes(4) == 315;
    if k < 10 {
      RungsAre(k + 1);
    }
  }

  /** From any rung, the k-th attempt comes no sooner than the rungs between allow. */
  lemma {:induction false} AttemptsApart(row: Row, fs: seq<Failure>, k: nat)
    requires row.retryCount <= MAX_SYNC_RETRIES && k < |fs|
    requires BeforeParkingDate(fs) && FailureRun(row, fs)
    ensures row.retryCount + k <= MAX_SYNC_RETRIES
    ensures Truncate(fs[k].at) - Truncate(fs[0].at) >= 60 * (LadderMinutes(row.retryCount) - LadderMinutes(row.retryCount + k))
    decreases k
  {
    if k > 0 {
      var (next, rest) := (Failed(row, fs[0].at, fs[0].retryable), fs[1..]);
      assert forall i :: 0 <= i < |rest| ==> rest[i] == fs[i + 1];
      if Parked(next) {
        ParkedSeesNothing(next, rest);
      }
      assert Due(next, rest[0].at);
      AttemptsApart(next, rest, k - 1);
    }
  }

  /** A freshly transitioned row is tried again after 1, 3, 8, 23, 53, 98, 158, 218, 278 and 338 minutes at the soonest. */
  lemma TriedAgainAfter(status: Status, fs: seq<Failure>, k: nat)
    requires BeforeParkingDate(fs) && FailureRun(Fresh(status), fs) && k < |fs|
    ensures k <= 10 && Truncate(fs[k].at) - Truncate(fs[0].at) >= 60 * ELAPSED[k]
  {
    AttemptsApart(Fresh(status), fs, k);
    RungsAre(0);
    RungsAre(k);
  }

  /** Each failure comes as soon as the one before it allows. */
  ghost predicate Prompt(rung: nat, at: Time, fs: seq<Failure>) {
    && (fs != [] ==> fs[0].at == at)
    && forall k :: 0 <= k < |fs| - 1 ==> fs[k + 1].at == fs[k].at + Backoff(rung + k)
  }

  lemma PromptFirst(rung: nat, at: Time, rest: seq<Failure>)
    requires Prompt(rung + 1, at + Backoff(rung), rest)
    ensures Prompt(rung, at, [Failure(at, true)] + rest)
  {
    var fs := [Failure(at, true)] + rest;
    forall k | 0 <= k < |fs| - 1
      ensures fs[k + 1].at == fs[k].at + Backoff(rung + k)
    {
      assert fs[k + 1] == rest[k];
      if k > 0 {
        assert fs[k] == rest[k - 1] && rung + 1 + (k - 1) == rung + k;
      }
    }
  }

  /** The bound is met: failing again as soon as the row is due uses every attempt left. */
  lemma {:induction false} BoundIsMet(row: Row, at: Time) returns (fs: seq<Failure>)
    requires row.retryCount <= MAX_SYNC_RETRIES && Due(row, at)
    requires at % 60 == 0 && at + 3600 * (MAX_SYNC_RETRIES + 1 - row.retryCount) < PARKED_RETRY_AT
    ensures |fs| == MAX_SYNC_RETRIES + 1 - row.retryCount
    ensures BeforeParkingDate(fs) && FailureRun(row, fs) && Prompt(row.retryCount, at, fs)
    decreases MAX_SYNC_RETRIES + 1 - row.retryCount
  {
    var next := Failed(row, at, true);
    var rest := [];
    if row.retryCount < MAX_SYNC_RETRIES {
      rest := BoundIsMet(next, at + Backoff(row.retryCount));
      PromptFirst(row.retryCount, at, rest);
    }
    fs := [Failure(at, true)] + rest;
    assert fs[1..] == rest;
  }

  /** A fresh row's prompt failures come exactly 1, 3, 8, 23, 53, 98, 158, 218, 278 and 338 minutes after the first. */
  lemma {:induction false} PromptElapsed(at: Time, fs: seq<Failure>, k: nat)
    requires Prompt(0, at, fs) && k < |fs| && k <= 10
    ensures fs[k].at == at + 60 * ELAPSED[k]
    decreases k
  {
    if k > 0 {
      PromptElapsed(at, fs, k - 1);
      assert fs[k - 1 + 1].at == fs[k - 1].at + Backoff(0 + (k - 1));
    }
  }

  // -------------------------------------------------------- recovery release

  const PARKED_THRESHOLD: Time := 61 * 60

  /** ReleaseParkedNodesOnNode: reset the rows whose retry lies beyond the threshold. */
  function Released(row: Row, parkedAfter: Time): Row {
    if row.retryAt.Some? && row.retryAt.value > parkedAfter then Fresh(row.status) else row
  }

  /** The row is on the ladder: a rung below the cap scheduled it at `at`. */
  ghost predicate ScheduledAt(row: Row, at: Time) {
    exists before: Row :: before.retryCount < MAX_SYNC_RETRIES && row == Failed(before, at, true)
  }

  /**
    A recovery pass reads the clock once, then pings nodes and releases.  It
    resets a ladder row exactly when that row was scheduled so much later than
    the clock reading that its rung lies past the threshold; a row scheduled at
    most a minute after the reading keeps its place.
   */
  lemma ReleaseOnTheLadder(row: Row, at: Time, clock: Time)
    requires ScheduledAt(row, at)
    ensures row.retryCount > 0
    ensures Released(row, clock + PARKED_THRESHOLD) != row <==>
              Truncate(at) + Backoff(row.retryCount - 1) > clock + PARKED_THRESHOLD
    ensures at <= clock + 60 ==> Released(row, clock + PARKED_THRESHOLD) == row
  {
    var before: Row :| before.retryCount < MAX_SYNC_RETRIES && row == Failed(before, at, true);
  }

  /**
    The exception is real: pings that take two minutes let a top-rung row,
    scheduled meanwhile by another pass, lose its place.
   */
  lemma SlowPingReleasesALadderRow()
    ensures exists row: Row :: ScheduledAt(row, 120) && Released(row, PARKED_THRESHOLD) != row
  {
    var before := Row(PendingAdd, 6, None);
    var row := Row(PendingAdd, 7, Some(120 + 3600));
    assert Backoff(6) == 3600 && Truncate(120) == 120;
    assert row == Failed(before, 120, true);
    assert ScheduledAt(row, 120);
    assert Released(row, PARKED_THRESHOLD) == Fresh(PendingAdd);
  }

  /** A row as every write leaves it: just transitioned, on a rung, or parked. */
  ghost predicate Scheduled(row: Row, now: Time) {
    || row == Fresh(row.status)
    || (Parked(row) && row.retryCount <= MAX_SYNC_RETRIES)
    || exists at :: at <= now && ScheduledAt(row, at)
  }

  lemma ScheduledLater(row: Row, now: Time, now': Time)
    requires Scheduled(row, now) && now <= now'
    ensures row.retryCount <= MAX_SYNC_RETRIES
    ensures Scheduled(row, now')
  {
    if !Parked(row) && row != Fresh(row.status) {
      var at :| at <= now && ScheduledAt(row, at);
    }
  }

  lemma ScheduledCap(row: Row, now: Time)
    requires Scheduled(row, now)
    ensures row.retryCount <= MAX_SYNC_RETRIES
  {
  }

  lemma ClimbIsScheduled(row: Row, now: Time)
    requires row.retryCount < MAX_SYNC_RETRIES
    ensures Scheduled(Failed(row, now, true), now)
  {
    assert ScheduledAt(Failed(row, now, true), now);
  }

  lemma FailureIsScheduled(row: Row, now: Time, retryable: bool)
    requires Scheduled(row, now)
    ensures Scheduled(Failed(row, now, retryable), now)
  {
    ScheduledCap(row, now);
    if row.retryCount < MAX_SYNC_RETRIES && retryable {
      ClimbIsScheduled(row, now);
    }
  }

  /** Failures and releases keep the shape, so retry_count never passes ten. */
  lemma ScheduledPreserved(row: Row, now: Time, retryable: bool)
    requires Scheduled(row, now)
    ensures Scheduled(Failed(row, now, retryable), now)
    ensures Scheduled(Released(row, now + PARKED_THRESHOLD), now)
  {
    FailureIsScheduled(row, now, retryable);
  }

  /**
    When nothing is scheduled between the clock reading and the release, the
    release resets exactly the parked rows.
   */
  lemma ReleaseResetsExactlyTheParked(row: Row, clock: Time)
    requires Scheduled(row, clock) && clock + PARKED_THRESHOLD < PARKED_RETRY_AT
    ensures Released(row, clock + PARKED_THRESHOLD) == if Parked(row) then Fresh(row.status) else row
  {
    if !Parked(row) && row != Fresh(row.status) {
      var at :| at <= clock && ScheduledAt(row, at);
      ReleaseOnTheLadder(row, at, clock);
    }
  }
}
