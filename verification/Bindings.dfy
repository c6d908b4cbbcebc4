/** A value that may be absent: a nullable column or pointer. */
module Options {
  datatype Option<+T> = None | Some(value: T)
}

/**
  Rows of subscription_nodes for one subscription, the retry metadata they carry
  and the selection by retry window.
 */
module Bindings {
  import opened Options

  type NodeId = nat
  type Time = int  // seconds

  datatype Status = Active | PendingAdd | PendingRemove | PendingUpdate

  datatype Row = Row(status: Status, retryCount: nat, retryAt: Option<Time>)

  type Rows = map<NodeId, Row>

  /** Every status transition clears the retry metadata. */
  function Fresh(status: Status): Row {
    Row(status, 0, None)
  }

  function Truncate(t: Time): Time {
    t - t % 60
  }

  const MAX_SYNC_RETRIES: nat := 10

  /** 9999-12-31 23:59 UTC as a Unix time. */
  const PARKED_RETRY_AT: Time := 253402300740

  /** Backoff after the given number of failures, in seconds; the last rung repeats. */
  function Backoff(retryCount: nat): Time {
    60 * (match retryCount
          case 0 => 1
          case 1 => 2
          case 2 => 5
          case 3 => 15
          case 4 => 30
          case 5 => 45
          case _ => 60)
  }

  /** handleSyncError for an error that is not a context error. */
  function Failed(row: Row, now: Time, retryable: bool): Row {
    if !retryable || row.retryCount >= MAX_SYNC_RETRIES then
      row.(retryAt := Some(PARKED_RETRY_AT))
    else
      row.(retryAt := Some(Truncate(now) + Backoff(row.retryCount)), retryCount := row.retryCount + 1)
  }

  /** What GetPendingSync and GetPendingBySubscriptionID select. */
  predicate Due(row: Row, now: Time) {
    !row.status.Active? && (row.retryAt.None? || row.retryAt.value <= Truncate(now))
  }
}
