/** The point DTOs: the balance record `UserPoint` with its limits, and the history
    record `PointHistory` that the history table stores. */
module UserPoints {
  import opened Longs

  /** Immutable balance record of one user. */
  datatype UserPoint = UserPoint(id: long, point: long, updateMillis: long)

  const MIN_POINT: long := 0
  const MAX_POINT: long := 1_000_000
  const MAX_POINT_PER_ONCE: long := 100_000

  /** The record a user has before any charge: point 0, stamped with the time `now`. */
  function Empty(id: long, now: long): (r: UserPoint)
    ensures r.id == id && r.point == MIN_POINT && r.updateMillis == now
  {
    UserPoint(id, 0, now)
  }

  /** A single charge never reaches the balance cap on its own. */
  lemma LimitsOrdered()
    ensures MIN_POINT == 0 && MAX_POINT == 1_000_000 && MAX_POINT_PER_ONCE == 100_000
    ensures MIN_POINT < MAX_POINT_PER_ONCE < MAX_POINT
  {
  }

  datatype TransactionType = CHARGE | USE

  /** One entry of the history log; `id` is the log's insertion cursor. */
  datatype PointHistory = PointHistory(id: nat, userId: long, amount: long, kind: TransactionType, updateMillis: long)
}
