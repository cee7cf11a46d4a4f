/** The `event_consumptions` table: one row per (handler, event), changed by three atomic updates. */
module Consumption {
  import opened Types

  datatype RowStatus = PROCESSING | SUCCEEDED | FAILED

  datatype Row = Row(status: RowStatus, attempts: int, nextRetryAt: Option<int>)

  type Table = map<Key, Row>

  predicate Due(r: Row, now: int) {
    r.nextRetryAt.None? || r.nextRetryAt.value <= now
  }

  predicate Exhausted(r: Row, maxAttempts: int) {
    r.attempts >= maxAttempts
  }

  /** An existing row may be (re)started: not done, attempts left, not waiting for a later retry. */
  predicate Startable(r: Row, maxAttempts: int, now: int) {
    r.status != SUCCEEDED && !Exhausted(r, maxAttempts) && Due(r, now)
  }

  /** The attempt number that `tryStart` hands out, or None when it refuses. A row that does not
      exist yet is always started, whatever the limit. */
  function StartAttempt(t: Table, k: Key, maxAttempts: int, now: int): Option<int> {
    if k !in t then Some(1)
    else if Startable(t[k], maxAttempts, now) then Some(t[k].attempts + 1)
    else None
  }

  /** The table after `tryStart`. A restart keeps the old `next_retry_at`. */
  function TryStart(t: Table, k: Key, maxAttempts: int, now: int): Table {
    match StartAttempt(t, k, maxAttempts, now)
    case None => t
    case Some(n) => t[k := Row(PROCESSING, n, if k in t then t[k].nextRetryAt else None)]
  }

  function MarkSucceeded(t: Table, k: Key): Table {
    if k in t then t[k := t[k].(status := SUCCEEDED, nextRetryAt := None)] else t
  }

  function MarkFailed(t: Table, k: Key, retryAt: int): Table {
    if k in t then t[k := t[k].(status := FAILED, nextRetryAt := Some(retryAt))] else t
  }

  /** Rows that `listDueRetries` may return for one handler. */
  predicate DueRetry(t: Table, k: Key, now: int) {
    k in t && t[k].status == FAILED && Due(t[k], now)
  }

  /** The sort key of the query. Rows marked FAILED always carry a retry time. */
  function RetryAt(r: Row): int {
    if r.nextRetryAt.Some? then r.nextRetryAt.value else 0
  }

  /** A possible answer of `listDueRetries`: due rows of one handler, earliest retry time first, the first `limit`. */
  ghost predicate IsDueList(t: Table, kind: Kind, now: int, limit: nat, ids: seq<EventId>) {
    && Distinct(ids) && |ids| <= limit
    && (forall i :: 0 <= i < |ids| ==> DueRetry(t, Key(kind, ids[i]), now))
    && (forall i, j :: 0 <= i < j < |ids| ==> RetryAt(t[Key(kind, ids[i])]) <= RetryAt(t[Key(kind, ids[j])]))
    && (forall id: EventId :: DueRetry(t, Key(kind, id), now) && id !in ids ==>
          |ids| == limit && forall i :: 0 <= i < |ids| ==> RetryAt(t[Key(kind, ids[i])]) <= RetryAt(t[Key(kind, id)]))
  }

  // ---------- Backoff ----------

  const BASE_MS := 2000
  const CAP_MS := 300000

  function Pow2(n: nat): (r: nat)
    ensures r >= 1
  {
    if n == 0 then 1 else 2 * Pow2(n - 1)
  }

  /** Delay before the attempt that follows attempt number `attempt`. */
  function BackoffMs(attempt: int): int {
    Min(CAP_MS, BASE_MS * Pow2(Max(0, attempt - 1)))
  }

  // ---------- The table in place ----------

  /** The table in place: each method is one atomic update. */
  class EventConsumptionRepository {
    var rows: Table

    constructor ()
      ensures rows == map[]
    {
      rows := map[];
    }

    /** Starts a row if it may be: a new one always, an existing one by its status, attempts and retry time. */
    method Start(k: Key, maxAttempts: int, now: int) returns (attempt: Option<int>)
      modifies this
      ensures rows == TryStart(old(rows), k, maxAttempts, now)
      ensures attempt == StartAttempt(old(rows), k, maxAttempts, now)
    {
      if k !in rows {
        rows := rows[k := Row(PROCESSING, 1, None)];
        return Some(1);
      }
      var existing := rows[k];
      if existing.status == SUCCEEDED { return None; }
      if existing.attempts >= maxAttempts { return None; }
      if existing.nextRetryAt.Some? && existing.nextRetryAt.value > now { return None; }
      rows := rows[k := existing.(status := PROCESSING, attempts := existing.attempts + 1)];
      return Some(existing.attempts + 1);
    }

    method Succeed(k: Key)
      modifies this
      ensures rows == MarkSucceeded(old(rows), k)
    {
      if k in rows { rows := rows[k := rows[k].(status := SUCCEEDED, nextRetryAt := None)]; }
    }

    method Fail(k: Key, retryAt: int)
      modifies this
      ensures rows == MarkFailed(old(rows), k, retryAt)
    {
      if k in rows { rows := rows[k := rows[k].(status := FAILED, nextRetryAt := Some(retryAt))]; }
    }
  }
}
