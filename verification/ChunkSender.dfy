/**
  One worker delivering one claimed recipient: the send loop of a chunk with its
  retries and flood waits, the chunk loop around it, and why every run of that
  code is a run of the Delivery protocol.
 */
module ChunkSender {
  import opened Options
  import R = Recipients
  import D = Delivery
  import MessageSplitter

  /** Longest message in bytes. */
  const MAX_MESSAGE: nat := 4096

  /** Durations in milliseconds. */
  const RETRIES: nat := 2
  const RETRY_BASE: nat := 300
  const FLOOD_WAITS: nat := 5
  const FLOOD_DEFAULT: nat := 5_000
  const FLOOD_MAX: nat := 90_000

  /** Telegram's answer to one send; `Other` is any error that is none of the three known kinds. */
  datatype Reply = Ok | Blocked | Unreachable | Flood(retryAfter: int) | Other(code: int)

  datatype ChunkResult = Arrived | Settled(outcome: R.Status) | GaveUp(recorded: Reply) | Aborted

  /**
    What the outside does: the reply to the n-th send, whether the n-th wait is cut
    short by cancellation, and the database's answer to the checkpoint of chunk n.
   */
  datatype Outside = Outside(reply: nat -> Reply, cancelled: nat -> bool, save: nat -> Saving)

  datatype Saving = Saved | LeaseLost | DbError

  predicate Transient(r: Reply) {
    r.Flood? || r.Other?
  }

  function FloodDelay(r: Reply): (delay: nat)
    ensures delay <= 90 * 1000
    ensures r.Flood? && r.retryAfter > 0 ==> delay <= r.retryAfter * 1000 && (delay == r.retryAfter * 1000 || delay == 90 * 1000)
    ensures !(r.Flood? && r.retryAfter > 0) ==> delay == 5 * 1000
  {
    if r.Flood? && r.retryAfter > 0 then
      if r.retryAfter * 1000 < FLOOD_MAX then r.retryAfter * 1000 else FLOOD_MAX
    else FLOOD_DEFAULT
  }

  /** That many flood waits. */
  function FloodTime(waits: nat, delay: nat): nat {
    if waits == 0 then 0 else FloodTime(waits - 1, delay) + delay
  }

  // ----------------------------------------------------- attempts and give-up

  /** A failed attempt: a run of floods ended by another error, or six floods. */
  predicate Attempt(calls: seq<Reply>) {
    && 1 <= |calls| <= 1 + FLOOD_WAITS
    && (forall i :: 0 <= i < |calls| - 1 ==> calls[i].Flood?)
    && (calls[|calls| - 1].Other? || (calls[|calls| - 1].Flood? && |calls| == 1 + FLOOD_WAITS))
  }

  predicate Attempts(calls: seq<Reply>, parts: seq<seq<Reply>>)
    decreases |parts|
  {
    if parts == [] then calls == []
    else Attempt(parts[0]) && parts[0] <= calls && Attempts(calls[|parts[0]|..], parts[1..])
  }

  /** The code gave up after exactly 1 + RETRIES failed attempts and recorded this error. */
  ghost predicate GivenUp(calls: seq<Reply>, recorded: Reply) {
    exists parts: seq<seq<Reply>> ::
      |parts| == 1 + RETRIES && Attempts(calls, parts) && [recorded] <= parts[RETRIES]
  }

  /** No attempt is a proper beginning of another, so replies split in one way only. */
  lemma {:induction false} SplitIsUnique(calls: seq<Reply>, parts: seq<seq<Reply>>, parts': seq<seq<Reply>>)
    requires Attempts(calls, parts) && Attempts(calls, parts') && |parts| == |parts'|
    ensures parts == parts'
    decreases |parts|
  {
    if parts != [] {
      var a, b := parts[0], parts'[0];
      assert forall i :: 0 <= i < |a| ==> a[i] == calls[i];
      assert forall i :: 0 <= i < |b| ==> b[i] == calls[i];
      assert |a| == |b|;
      assert a == b;
      SplitIsUnique(calls[|a|..], parts[1..], parts'[1..]);
    }
  }

  lemma {:induction false} LastCall(calls: seq<Reply>, parts: seq<seq<Reply>>)
    requires Attempts(calls, parts) && parts != []
    ensures calls != [] && parts[|parts| - 1] != []
    ensures Last(calls) == Last(parts[|parts| - 1])
    decreases |parts|
  {
    if |parts| == 1 {
      assert calls[|parts[0]|..] == [];
      assert calls == parts[0];
    } else {
      LastCall(calls[|parts[0]|..], parts[1..]);
    }
  }

  function Last<T>(s: seq<T>): T
    requires s != []
  {
    s[|s| - 1]
  }

  /**
    Only the first reply of the last attempt is ever recorded.  That is the last
    reply received exactly when this attempt began and ended with the same error:
    an error that ends a run of floods is lost.
   */
  lemma RecordedError(calls: seq<Reply>, parts: seq<seq<Reply>>, recorded: Reply)
    requires |parts| == 1 + RETRIES && Attempts(calls, parts)
    ensures Attempt(parts[RETRIES]) && calls != []
    ensures GivenUp(calls, recorded) <==> recorded == parts[RETRIES][0]
    ensures GivenUp(calls, Last(calls)) <==> parts[RETRIES][0] == Last(parts[RETRIES])
    ensures |parts[RETRIES]| > 1 && Last(calls).Other? ==> !GivenUp(calls, Last(calls))
  {
    LastCall(calls, parts);
    EachIsAnAttempt(calls, parts, RETRIES);
    if GivenUp(calls, recorded) {
      var other: seq<seq<Reply>> :| |other| == 1 + RETRIES && Attempts(calls, other) && [recorded] <= other[RETRIES];
      SplitIsUnique(calls, parts, other);
    }
    if GivenUp(calls, Last(calls)) {
      var other: seq<seq<Reply>> :| |other| == 1 + RETRIES && Attempts(calls, other) && [Last(calls)] <= other[RETRIES];
      SplitIsUnique(calls, parts, other);
    }
  }

  lemma {:induction false} EachIsAnAttempt(calls: seq<Reply>, parts: seq<seq<Reply>>, k: nat)
    requires Attempts(calls, parts) && k < |parts|
    ensures Attempt(parts[k])
    decreases |parts|
  {
    if k > 0 {
      EachIsAnAttempt(calls[|parts[0]|..], parts[1..], k - 1);
    }
  }

  lemma {:induction false} OneMoreAttempt(calls: seq<Reply>, parts: seq<seq<Reply>>, last: seq<Reply>)
    requires Attempts(calls, parts) && Attempt(last)
    ensures Attempts(calls + last, parts + [last])
    decreases |parts|
  {
    if parts == [] {
      assert (calls + last)[|last|..] == [];
      assert (parts + [last])[1..] == [];
    } else {
      OneMoreAttempt(calls[|parts[0]|..], parts[1..], last);
      assert (calls + last)[|parts[0]|..] == calls[|parts[0]|..] + last;
      assert (parts + [last])[1..] == parts[1..] + [last];
    }
  }

  // --------------------------------------------------------------- one chunk

  ghost predicate Answers(out: Outside, first: nat, calls: seq<Reply>) {
    forall i :: 0 <= i < |calls| ==> calls[i] == out.reply(first + i)
  }

  predicate AllTransient(calls: seq<Reply>) {
    forall i :: 0 <= i < |calls| ==> Transient(calls[i])
  }

  /** What the replies of a chunk, or of one attempt, say about how it ended. */
  ghost predicate Tells(out: Outside, calls: seq<Reply>, result: ChunkResult)
    requires calls != []
  {
    && (forall i :: 0 <= i < |calls| - 1 ==> Transient(calls[i]))
    && (result.Arrived? <==> Last(calls).Ok?)
    && (result == Settled(R.Blocked) <==> Last(calls).Blocked?)
    && (result == Settled(R.Unreachable) <==> Last(calls).Unreachable?)
    && (result.Settled? ==> result.outcome in {R.Blocked, R.Unreachable})
  }

  /** The first `waits` waits ran to their end, and an abort is a cancelled next one. */
  ghost predicate Waited(out: Outside, wait: nat, waits: nat, result: ChunkResult) {
    && (forall n :: wait <= n < wait + waits ==> !out.cancelled(n))
    && (result.Aborted? ==> out.cancelled(wait + waits))
  }

  /**
    The flood loop: `err` is the flood that opened the attempt, and every wait
    takes its hint and every failure reports it, whatever came later.
   */
  method WaitOutFlood(out: Outside, err: Reply, first: nat, wait: nat)
    returns (result: ChunkResult, calls: seq<Reply>, waits: nat, waited: nat)
    requires err.Flood? && err == out.reply(first)
    ensures |calls| <= 1 + FLOOD_WAITS && [err] <= calls && Answers(out, first, calls)
    ensures Tells(out, calls, result) && Waited(out, wait, waits, result)
    ensures result.GaveUp? ==> Attempt(calls) && result.recorded == err
    ensures waits == |calls| - 1 && waited == FloodTime(waits, FloodDelay(err))
  {
    calls, waits, waited := [err], 0, 0;
    while waits < FLOOD_WAITS
      invariant waits <= FLOOD_WAITS && |calls| == 1 + waits
      invariant [err] <= calls && Answers(out, first, calls)
      invariant forall i :: 0 <= i < |calls| ==> calls[i].Flood?
      invariant forall n :: wait <= n < wait + waits ==> !out.cancelled(n)
      invariant waited == FloodTime(waits, FloodDelay(err))
    {
      if out.cancelled(wait + waits) {
        return Aborted, calls, waits, waited;
      }
      waits, waited := waits + 1, waited + FloodDelay(err);
      var inner := out.reply(first + |calls|);
      calls := calls + [inner];
      match inner {
        case Ok =>
          return Arrived, calls, waits, waited;
        case Blocked =>
          return Settled(R.Blocked), calls, waits, waited;
        case Unreachable =>
          return Settled(R.Unreachable), calls, waits, waited;
        case Flood(_) =>
        case Other(_) =>
          return GaveUp(err), calls, waits, waited;
      }
    }
    result := GaveUp(err);
  }

  lemma {:induction false} TotalDelay(waits: nat, delay: nat)
    requires delay <= FLOOD_MAX
    ensures waits <= FLOOD_WAITS ==> FloodTime(waits, delay) <= waits * 90_000
    decreases waits
  {
    if waits > 0 {
      TotalDelay(waits - 1, delay);
    }
  }

  /** The send of one round with its flood waits. */
  method TryOnce(out: Outside, first: nat, wait: nat)
    returns (result: ChunkResult, calls: seq<Reply>, waits: nat, waited: nat)
    ensures 1 <= |calls| <= 1 + FLOOD_WAITS && Answers(out, first, calls)
    ensures Tells(out, calls, result) && Waited(out, wait, waits, result)
    ensures result.GaveUp? ==> Attempt(calls) && result.recorded == calls[0]
    ensures waits == |calls| - 1 && waited == FloodTime(waits, FloodDelay(calls[0])) <= 5 * FLOOD_MAX
  {
    var err := out.reply(first);
    match err {
      case Ok => return Arrived, [err], 0, 0;
      case Blocked => return Settled(R.Blocked), [err], 0, 0;
      case Unreachable => return Settled(R.Unreachable), [err], 0, 0;
      case Flood(_) =>
        result, calls, waits, waited := WaitOutFlood(out, err, first, wait);
        TotalDelay(waits, FloodDelay(err));
      case Other(_) => return GaveUp(err), [err], 0, 0;
    }
  }

  /** What the last round says about the chunk; a round cut before its send comes after some other. */
  lemma Joined(out: Outside, first: nat, before: seq<Reply>, more: seq<Reply>, result: ChunkResult)
    requires Answers(out, first, before) && Answers(out, first + |before|, more)
    requires AllTransient(before) && before + more != []
    requires if more == [] then result.Aborted? else Tells(out, more, result)
    ensures Answers(out, first, before + more) && Tells(out, before + more, result)
  {
    var all := before + more;
    assert Last(all) == if more == [] then Last(before) else Last(more);
    forall i | 0 <= i < |all|
      ensures all[i] == out.reply(first + i)
    {
      assert all[i] == if i < |before| then before[i] else more[i - |before|];
    }
  }

  /** A failed attempt after some others: the replies so far are one attempt longer. */
  lemma FailedAgain(out: Outside, first: nat, before: seq<Reply>, parts: seq<seq<Reply>>, more: seq<Reply>, recorded: Reply)
    requires Attempts(before, parts) && Answers(out, first, before) && Answers(out, first + |before|, more)
    requires AllTransient(before)
    requires Attempt(more) && recorded == more[0]
    ensures Attempts(before + more, parts + [more]) && Answers(out, first, before + more)
    ensures AllTransient(before + more)
    ensures (parts + [more])[|parts|] == more && [recorded] <= more
  {
    OneMoreAttempt(before, parts, more);
    forall i | 0 <= i < |more|
      ensures Transient(more[i]) && more[i] == out.reply(first + |before| + i)
    {
      assert i < |more| - 1 ==> more[i].Flood?;
    }
    var all := before + more;
    forall i | 0 <= i < |all|
      ensures Transient(all[i]) && all[i] == out.reply(first + i)
    {
      assert all[i] == if i < |before| then before[i] else more[i - |before|];
    }
  }

  /** All attempts failed: the chunk is given up with the last attempt's first reply. */
  lemma AllFailed(out: Outside, calls: seq<Reply>, parts: seq<seq<Reply>>, recorded: Reply)
    requires |parts| == 1 + RETRIES && Attempts(calls, parts) && [recorded] <= parts[RETRIES]
    requires AllTransient(calls)
    ensures calls != [] && Tells(out, calls, GaveUp(recorded)) && GivenUp(calls, recorded)
  {
    LastCall(calls, parts);
  }

  lemma WaitedOn(out: Outside, wait: nat, waits: nat, more: nat, result: ChunkResult)
    requires Waited(out, wait, waits, Arrived) && Waited(out, wait + waits, more, result)
    ensures Waited(out, wait, waits + more, result)
  {
  }

  /** The longest the first attempts and their delays can take. */
  function WaitBudget(attempts: nat): nat {
    match attempts
    case 0 => 0
    case 1 => 5 * FLOOD_MAX
    case 2 => 10 * FLOOD_MAX + RETRY_BASE
    case _ => 15 * FLOOD_MAX + 3 * RETRY_BASE
  }

  /** What a round says for the rounds around it. */
  ghost predicate RoundEnded(out: Outside, attempt: nat, first: nat, wait: nat,
                             result: ChunkResult, calls: seq<Reply>, waits: nat) {
    && |calls| <= 1 + FLOOD_WAITS && Answers(out, first, calls)
    && (if calls == [] then attempt > 0 && result.Aborted? else Tells(out, calls, result))
    && Waited(out, wait, waits, result)
    && (result.GaveUp? ==> Attempt(calls) && result.recorded == calls[0])
    && waits == if calls == [] then 0 else |calls| - 1 + (if attempt > 0 then 1 else 0)
  }

  /** One round of the trySend loop: from the second on it starts with a delay that grows. */
  method TryRound(out: Outside, attempt: nat, first: nat, wait: nat)
    returns (result: ChunkResult, calls: seq<Reply>, waits: nat, waited: nat)
    ensures RoundEnded(out, attempt, first, wait, result, calls, waits)
    ensures waited == if calls == [] then 0 else 300 * attempt + FloodTime(|calls| - 1, FloodDelay(calls[0]))
    ensures waited <= 5 * FLOOD_MAX + 300 * attempt
  {
    var before := 0;
    if attempt > 0 {
      if out.cancelled(wait) {
        return Aborted, [], 0, 0;
      }
      before := 1;
    }
    result, calls, waits, waited := TryOnce(out, first, wait + before);
    WaitedOn(out, wait, before, waits, result);
    waits, waited := before + waits, RETRY_BASE * attempt + waited;
  }

  /** The trySend loop before round `attempt`: everything failed so far. */
  ghost predicate FailedSoFar(out: Outside, attempt: nat, first: nat, wait: nat, calls: seq<Reply>,
                              parts: seq<seq<Reply>>, lastErr: Option<Reply>, waits: nat) {
    && |parts| == attempt && Attempts(calls, parts) && Answers(out, first, calls)
    && attempt <= |calls| <= 6 * attempt
    && (if attempt == 0 then lastErr.None? else lastErr.Some? && [lastErr.value] <= parts[attempt - 1])
    && AllTransient(calls) && Waited(out, wait, waits, Arrived)
    && waits == if attempt == 0 then 0 else |calls| - 1
  }

  lemma RoundFailed(out: Outside, attempt: nat, first: nat, wait: nat, calls: seq<Reply>, parts: seq<seq<Reply>>,
                    lastErr: Option<Reply>, waits: nat, result: ChunkResult, more: seq<Reply>, mwaits: nat)
    requires FailedSoFar(out, attempt, first, wait, calls, parts, lastErr, waits)
    requires RoundEnded(out, attempt, first + |calls|, wait + waits, result, more, mwaits) && result.GaveUp?
    ensures FailedSoFar(out, attempt + 1, first, wait, calls + more, parts + [more], Some(result.recorded), waits + mwaits)
  {
    FailedAgain(out, first, calls, parts, more, result.recorded);
    WaitedOn(out, wait, waits, mwaits, result);
  }

  lemma RoundDecided(out: Outside, attempt: nat, first: nat, wait: nat, calls: seq<Reply>, parts: seq<seq<Reply>>,
                     lastErr: Option<Reply>, waits: nat, result: ChunkResult, more: seq<Reply>, mwaits: nat)
    requires FailedSoFar(out, attempt, first, wait, calls, parts, lastErr, waits)
    requires RoundEnded(out, attempt, first + |calls|, wait + waits, result, more, mwaits) && !result.GaveUp?
    ensures 1 <= |calls + more| <= 6 * (attempt + 1) && waits + mwaits == |calls + more| - 1
    ensures Answers(out, first, calls + more) && Tells(out, calls + more, result)
    ensures Waited(out, wait, waits + mwaits, result)
  {
    Joined(out, first, calls, more, result);
    WaitedOn(out, wait, waits, mwaits, result);
  }

  /**
    The trySend loop.  `first` and `wait` number the sends and waits made before.
    lastErr starts empty: a delivered chunk always leaves it so.
   */
  method SendChunk(out: Outside, first: nat, wait: nat)
    returns (result: ChunkResult, calls: seq<Reply>, waits: nat, waited: nat)
    ensures 1 <= |calls| <= (1 + RETRIES) * (1 + FLOOD_WAITS) == 18
    ensures Answers(out, first, calls)
    ensures Tells(out, calls, result) && Waited(out, wait, waits, result)
    ensures result.GaveUp? ==> GivenUp(calls, result.recorded)
    ensures waits == |calls| - 1 && waited <= 3 * RETRY_BASE + 15 * FLOOD_MAX
  {
    calls, waits, waited := [], 0, 0;
    var lastErr: Option<Reply> := None;
    ghost var parts: seq<seq<Reply>> := [];
    var attempt := 0;
    while attempt <= RETRIES
      invariant 0 <= attempt <= 1 + RETRIES
      invariant FailedSoFar(out, attempt, first, wait, calls, parts, lastErr, waits)
      invariant waited <= WaitBudget(attempt)
    {
      var more, mwaits, mwaited;
      result, more, mwaits, mwaited := TryRound(out, attempt, first + |calls|, wait + waits);
      if !result.GaveUp? {
        RoundDecided(out, attempt, first, wait, calls, parts, lastErr, waits, result, more, mwaits);
        return result, calls + more, waits + mwaits, waited + mwaited;
      }
      RoundFailed(out, attempt, first, wait, calls, parts, lastErr, waits, result, more, mwaits);
      calls, waits, waited := calls + more, waits + mwaits, waited + mwaited;
      parts := parts + [more];
      lastErr := Some(result.recorded);
      attempt := attempt + 1;
    }
    AllFailed(out, calls, parts, lastErr.value);
    result := GaveUp(lastErr.value);
  }

  // ----------------------------------------------------------- one recipient

  /** What the worker does that others can notice; a cut is a cancelled wait. */
  datatype Event =
    | Delivered(chunk: nat)
    | Progress(next: nat, saving: Saving)
    | Outcome(status: R.Status, saving: Saving)
    | Cut

  /** What a chunk that was not delivered leads to. */
  function Ending(result: ChunkResult, finish: Saving): Option<Event> {
    match result
    case Arrived => None
    case Settled(status) => Some(Outcome(status, finish))
    case GaveUp(_) => Some(Outcome(R.Failed, finish))
    case Aborted => Some(Cut)
  }

  /** Where a worker of the protocol stands after some events. */
  datatype Place = At(worker: D.Worker) | Ended | Off

  predicate Allowed(w: D.Worker, chunks: nat, e: Event) {
    match e
    case Delivered(chunk) => w.phase.Sending? && chunk == w.next < chunks
    case Progress(next, _) => w.phase.Checkpointing? && next == w.next + 1
    case Outcome(status, _) =>
      w.phase.Sending? && if w.next < chunks then status in {R.Blocked, R.Unreachable, R.Failed} else status.Sent?
    case Cut => w.phase.Sending?
  }

  function After(w: D.Worker, e: Event): Place {
    match e
    case Delivered(_) => At(w.(phase := D.Checkpointing))
    case Progress(next, saving) => if saving.LeaseLost? then Ended else At(D.Worker(w.start, next, D.Phase.Sending))
    case Outcome(_, _) => Ended
    case Cut => Ended
  }

  function PlaceAfter(w: D.Worker, chunks: nat, trace: seq<Event>): Place {
    if trace == [] then At(w)
    else
      var p := PlaceAfter(w, chunks, trace[..|trace| - 1]);
      if p.At? && Allowed(p.worker, chunks, Last(trace)) then After(p.worker, Last(trace)) else Off
  }

  /** Every checkpoint of the trace got the database's answer. */
  ghost predicate SavesAnswered(out: Outside, trace: seq<Event>) {
    forall i :: 0 <= i < |trace| && trace[i].Progress? ==> trace[i].saving == out.save(trace[i].next)
  }

  lemma Then(w: D.Worker, chunks: nat, out: Outside, trace: seq<Event>, e: Event)
    requires SavesAnswered(out, trace) && (e.Progress? ==> e.saving == out.save(e.next))
    ensures var p := PlaceAfter(w, chunks, trace);
            PlaceAfter(w, chunks, trace + [e]) == if p.At? && Allowed(p.worker, chunks, e) then After(p.worker, e) else Off
    ensures SavesAnswered(out, trace + [e]) && Last(trace + [e]) == e
  {
    assert (trace + [e])[..|trace|] == trace;
  }

  /**
    processRecipient: every trace of it is one a protocol worker may produce, it
    always ends its claim, and no chunk costs more than 18 sends.
   */
  method ProcessRecipient(text: string, nextChunk: nat, out: Outside, finish: Saving)
    returns (trace: seq<Event>, sends: nat)
    ensures var chunks := |MessageSplitter.Split(text, MAX_MESSAGE)|;
            PlaceAfter(D.Worker(nextChunk, D.StartAt(nextChunk, chunks), D.Phase.Sending), chunks, trace).Ended?
    ensures var chunks := |MessageSplitter.Split(text, MAX_MESSAGE)|;
            sends <= 18 * (chunks - D.StartAt(nextChunk, chunks))
    ensures SavesAnswered(out, trace)
    ensures Last(trace).Cut? ==> exists n :: out.cancelled(n)
    ensures Last(trace).Outcome? ==> Last(trace).saving == finish
  {
    var messages := MessageSplitter.SplitMessage(text, MAX_MESSAGE);
    var chunks := |messages|;
    var start := D.StartAt(nextChunk, chunks);
    ghost var w := D.Worker(nextChunk, start, D.Phase.Sending);
    trace, sends := [], 0;
    var waits: nat := 0;
    var i := start;
    while i < chunks
      invariant start <= i <= chunks
      invariant PlaceAfter(w, chunks, trace) == At(D.Worker(nextChunk, i, D.Phase.Sending))
      invariant sends <= 18 * (i - start)
      invariant SavesAnswered(out, trace)
    {
      var result, calls, more, waited := SendChunk(out, sends, waits);
      sends := sends + |calls|;
      var end := Ending(result, finish);
      if end.Some? {
        Then(w, chunks, out, trace, end.value);
        trace := trace + [end.value];
        return;
      }
      waits := waits + more;
      Then(w, chunks, out, trace, Delivered(i));
      trace := trace + [Delivered(i)];
      var saving := out.save(i + 1);
      Then(w, chunks, out, trace, Progress(i + 1, saving));
      trace := trace + [Progress(i + 1, saving)];
      if saving.LeaseLost? {
        return;
      }
      i := i + 1;
    }
    Then(w, chunks, out, trace, Outcome(R.Sent, finish));
    trace := trace + [Outcome(R.Sent, finish)];
  }

  // ------------------------------------------------- refinement of Delivery

  /** The protocol steps one event stands for. */
  function StepsOf(l: D.Lease, e: Event, now: R.Time): seq<D.Step> {
    match e
    case Delivered(_) => [D.Send(l, true)]
    case Progress(_, saving) => [D.SaveProgress(l, !saving.DbError?, now)]
    case Outcome(status, saving) =>
      [if status.Sent? then D.AllSent(l) else D.Fail(l, status), D.Record(l, !saving.DbError?, now)]
    case Cut => [D.Abandon(l)]
  }

  /** The database answers a guarded write by the state of the claim. */
  predicate Answered(s: D.State, l: D.Lease, saving: Saving) {
    match saving
    case Saved => D.Holds(s, l)
    case LeaseLost => !D.Holds(s, l)
    case DbError => true
  }

  /** An event of the code is a run of the protocol, and both stand at the same place after it. */
  lemma EventRefines(s: D.State, chunks: nat, l: D.Lease, e: Event, now: R.Time)
    requires l in s.workers && Allowed(s.workers[l], chunks, e)
    requires match e case Progress(_, saving) => Answered(s, l, saving) case Outcome(_, saving) => Answered(s, l, saving) case _ => true
    ensures exists s' ::
              && D.Reaches(s, chunks, StepsOf(l, e, now), s')
              && (match After(s.workers[l], e)
                  case At(w) => l in s'.workers && s'.workers[l] == w
                  case _ => l !in s'.workers)
  {
    var steps := StepsOf(l, e, now);
    var m := D.Apply(s, chunks, steps[0]);
    if e.Outcome? {
      var m' := D.Apply(m, chunks, steps[1]);
      assert D.Reaches(m', chunks, steps[1..][1..], m');
      assert D.Reaches(m, chunks, steps[1..], m');
      assert D.Reaches(s, chunks, steps, m');
    } else {
      assert D.Reaches(m, chunks, steps[1..], m);
      assert D.Reaches(s, chunks, steps, m);
    }
  }

  function LeaseOf(step: D.Step): Option<D.Lease> {
    match step
    case Send(l, _) => Some(l)
    case SaveProgress(l, _, _) => Some(l)
    case AllSent(l) => Some(l)
    case Fail(l, _) => Some(l)
    case Record(l, _, _) => Some(l)
    case Abandon(l) => Some(l)
    case _ => None
  }

  /** Nothing anyone else does, claims included, moves a worker: events can be interleaved freely. */
  lemma OthersLeaveWorkerAlone(s: D.State, chunks: nat, step: D.Step, l: D.Lease)
    requires D.Inv(s, chunks) && D.Enabled(s, chunks, step) && l in s.workers && LeaseOf(step) != Some(l)
    ensures var s' := D.Apply(s, chunks, step); l in s'.workers && s'.workers[l] == s.workers[l]
  {
    assert D.WorkerValid(s, chunks, l);
    if step.ClaimBatch? {
      assert forall k :: 0 <= k < |step.order| ==> step.order[k] in step.order;
    }
  }

  // ------------------------------------------------ a whole trace, interleaved

  /** What others do before an event of this worker, and when the event happens. */
  datatype Round = Round(others: seq<D.Step>, event: Event, now: R.Time)

  function Events(rounds: seq<Round>): seq<Event> {
    seq(|rounds|, i requires 0 <= i < |rounds| => rounds[i].event)
  }

  ghost predicate AllEnabled(s: D.State, chunks: nat, steps: seq<D.Step>)
    decreases |steps|
  {
    steps == [] || (D.Enabled(s, chunks, steps[0]) && AllEnabled(D.Apply(s, chunks, steps[0]), chunks, steps[1..]))
  }

  /** Where the steps lead, up to the first that is not enabled. */
  ghost function Result(s: D.State, chunks: nat, steps: seq<D.Step>): D.State
    decreases |steps|
  {
    if steps == [] || !D.Enabled(s, chunks, steps[0]) then s
    else Result(D.Apply(s, chunks, steps[0]), chunks, steps[1..])
  }

  predicate NoneBy(steps: seq<D.Step>, l: D.Lease) {
    forall i :: 0 <= i < |steps| ==> LeaseOf(steps[i]) != Some(l)
  }

  predicate EventAnswered(s: D.State, l: D.Lease, e: Event) {
    match e
    case Progress(_, saving) => Answered(s, l, saving)
    case Outcome(_, saving) => Answered(s, l, saving)
    case _ => true
  }

  /** Others take any enabled steps of their own, and the database answers by the state it is in. */
  ghost predicate Plays(s: D.State, chunks: nat, l: D.Lease, rounds: seq<Round>)
    decreases |rounds|
  {
    rounds == [] ||
    var (r, m) := (rounds[0], Result(s, chunks, rounds[0].others));
    && AllEnabled(s, chunks, r.others) && NoneBy(r.others, l) && EventAnswered(m, l, r.event)
    && Plays(Result(m, chunks, StepsOf(l, r.event, r.now)), chunks, l, rounds[1..])
  }

  /** Everybody's steps, in order. */
  function AllSteps(l: D.Lease, rounds: seq<Round>): seq<D.Step>
    decreases |rounds|
  {
    if rounds == [] then []
    else rounds[0].others + StepsOf(l, rounds[0].event, rounds[0].now) + AllSteps(l, rounds[1..])
  }

  predicate StandsAt(s: D.State, l: D.Lease, p: Place) {
    match p
    case At(w) => l in s.workers && s.workers[l] == w
    case Ended => l !in s.workers
    case Off => false
  }

  lemma {:induction false} EnabledReaches(s: D.State, chunks: nat, steps: seq<D.Step>)
    requires AllEnabled(s, chunks, steps)
    ensures D.Reaches(s, chunks, steps, Result(s, chunks, steps))
    decreases |steps|
  {
    if steps != [] {
      EnabledReaches(D.Apply(s, chunks, steps[0]), chunks, steps[1..]);
    }
  }

  lemma {:induction false} ReachesIsResult(s: D.State, chunks: nat, steps: seq<D.Step>, s': D.State)
    requires D.Reaches(s, chunks, steps, s')
    ensures AllEnabled(s, chunks, steps) && Result(s, chunks, steps) == s'
    decreases |steps|
  {
    if steps != [] {
      ReachesIsResult(D.Apply(s, chunks, steps[0]), chunks, steps[1..], s');
    }
  }

  lemma {:induction false} ResultInTwo(s: D.State, chunks: nat, a: seq<D.Step>, b: seq<D.Step>)
    requires AllEnabled(s, chunks, a)
    ensures AllEnabled(s, chunks, a + b) <==> AllEnabled(Result(s, chunks, a), chunks, b)
    ensures Result(s, chunks, a + b) == Result(Result(s, chunks, a), chunks, b)
    decreases |a|
  {
    if a == [] {
      assert a + b == b;
    } else {
      assert (a + b)[0] == a[0] && (a + b)[1..] == a[1..] + b;
      ResultInTwo(D.Apply(s, chunks, a[0]), chunks, a[1..], b);
    }
  }

  lemma {:induction false} OthersLeaveItThere(s: D.State, chunks: nat, steps: seq<D.Step>, l: D.Lease)
    requires D.Inv(s, chunks) && AllEnabled(s, chunks, steps) && l in s.workers && NoneBy(steps, l)
    ensures var m := Result(s, chunks, steps); D.Inv(m, chunks) && l in m.workers && m.workers[l] == s.workers[l]
    decreases |steps|
  {
    if steps != [] {
      D.InvPreserved(s, chunks, steps[0]);
      OthersLeaveWorkerAlone(s, chunks, steps[0], l);
      OthersLeaveItThere(D.Apply(s, chunks, steps[0]), chunks, steps[1..], l);
    }
  }

  /** An event at the front of a trace. */
  lemma {:induction false} PlaceFront(w: D.Worker, chunks: nat, e: Event, rest: seq<Event>)
    ensures PlaceAfter(w, chunks, [e] + rest) ==
              if !Allowed(w, chunks, e) then Off
              else if After(w, e).At? then PlaceAfter(After(w, e).worker, chunks, rest)
              else if rest == [] then Ended else Off
  {
    if rest == [] {
      assert ([e] + rest)[..0] == [] && Last([e] + rest) == e;
    } else {
      var front := rest[..|rest| - 1];
      assert ([e] + rest)[..|rest|] == [e] + front && Last([e] + rest) == Last(rest);
      PlaceFront(w, chunks, e, front);
    }
  }

  /** One round: the others run, then the event, and the worker stands where the code says. */
  lemma RoundRefines(s: D.State, chunks: nat, l: D.Lease, r: Round)
    requires D.Inv(s, chunks) && l in s.workers && Allowed(s.workers[l], chunks, r.event)
    requires AllEnabled(s, chunks, r.others) && NoneBy(r.others, l) && EventAnswered(Result(s, chunks, r.others), l, r.event)
    ensures var steps := r.others + StepsOf(l, r.event, r.now);
            && AllEnabled(s, chunks, steps) && D.Inv(Result(s, chunks, steps), chunks)
            && Result(s, chunks, steps) == Result(Result(s, chunks, r.others), chunks, StepsOf(l, r.event, r.now))
            && StandsAt(Result(s, chunks, steps), l, After(s.workers[l], r.event))
  {
    var (m, mine) := (Result(s, chunks, r.others), StepsOf(l, r.event, r.now));
    OthersLeaveItThere(s, chunks, r.others, l);
    EventRefines(m, chunks, l, r.event, r.now);
    var s' :| D.Reaches(m, chunks, mine, s') &&
              (match After(m.workers[l], r.event)
               case At(w) => l in s'.workers && s'.workers[l] == w
               case _ => l !in s'.workers);
    ReachesIsResult(m, chunks, mine, s');
    ResultInTwo(s, chunks, r.others, mine);
    D.Runs(m, chunks, mine, s');
  }

  lemma {:induction false} RoundsRefine(s: D.State, chunks: nat, l: D.Lease, rounds: seq<Round>)
    requires D.Inv(s, chunks) && l in s.workers && Plays(s, chunks, l, rounds)
    requires !PlaceAfter(s.workers[l], chunks, Events(rounds)).Off?
    ensures AllEnabled(s, chunks, AllSteps(l, rounds))
    ensures StandsAt(Result(s, chunks, AllSteps(l, rounds)), l, PlaceAfter(s.workers[l], chunks, Events(rounds)))
    decreases |rounds|
  {
    if rounds != [] {
      var (r, rest) := (rounds[0], rounds[1..]);
      var w := s.workers[l];
      assert Events(rounds) == [r.event] + Events(rest);
      PlaceFront(w, chunks, r.event, Events(rest));
      RoundRefines(s, chunks, l, r);
      var steps := r.others + StepsOf(l, r.event, r.now);
      var next := Result(s, chunks, steps);
      ResultInTwo(s, chunks, steps, AllSteps(l, rest));
      if After(w, r.event).At? {
        RoundsRefine(next, chunks, l, rest);
      } else {
        assert rest == [];
      }
    }
  }

  /**
    The whole trace: from a fresh claim on a text of `chunks` messages, the events
    of the code, interleaved with any steps of others and with the database
    answering by its state, are a run of the protocol that ends the claim.
   */
  lemma CodeRunsAreDeliveryRuns(s: D.State, chunks: nat, l: D.Lease, nextChunk: nat, rounds: seq<Round>)
    requires D.Inv(s, chunks) && Plays(s, chunks, l, rounds)
    requires l in s.workers && s.workers[l] == D.Worker(nextChunk, D.StartAt(nextChunk, chunks), D.Phase.Sending)
    requires PlaceAfter(s.workers[l], chunks, Events(rounds)).Ended?
    ensures var s' := Result(s, chunks, AllSteps(l, rounds));
            D.Reaches(s, chunks, AllSteps(l, rounds), s') && D.Inv(s', chunks) && l !in s'.workers
  {
    RoundsRefine(s, chunks, l, rounds);
    EnabledReaches(s, chunks, AllSteps(l, rounds));
    D.Runs(s, chunks, AllSteps(l, rounds), Result(s, chunks, AllSteps(l, rounds)));
  }
}
