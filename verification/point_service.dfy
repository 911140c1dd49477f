/** The ledger service: charge and use a user's points, and the two read-only queries.
    `ChargeOutcome` and `UseOutcome` state what one call does to the ledger's two tables;
    the class `UserPointService` performs the same steps in place and is proved to agree. */
module PointService {
  import opened Longs
  import opened UserPoints
  import opened ErrorCodes
  import opened Tables
  import opened LockFactory

  /** The contents of the balance table and of the history log. */
  datatype Ledger = Ledger(points: map<long, UserPoint>, histories: seq<PointHistory>)

  /** What one service call returns (or throws), and the ledger after it. */
  datatype Outcome = Outcome(result: Result<UserPoint>, after: Ledger)

  /** `chargePoint`: add `chargePointAmount` to the balance, reject a total above the cap,
      otherwise store the total and log a CHARGE record that carries the total. */
  function ChargeOutcome(l: Ledger, id: long, chargePointAmount: long, now: long): (o: Outcome)
    ensures o.result.Thrown? ==> o.result.error == OVER_CHARGE && o.after == l
    ensures InLongRange(Balance(l.points, id) + chargePointAmount) ==>
              (o.result.Thrown? <==> Balance(l.points, id) + chargePointAmount > MAX_POINT)
    ensures o.result.Ok? ==>
              var r := o.result.value;
              && r.id == id && r.updateMillis == now && r.point <= MAX_POINT
              && (InLongRange(Balance(l.points, id) + chargePointAmount) ==>
                    r.point == Balance(l.points, id) + chargePointAmount)
              && o.after.points == l.points[id := r]
              && o.after.histories == l.histories + [PointHistory(|l.histories| + 1, id, r.point, CHARGE, now)]
  {
    var currentUserPoint := Lookup(l.points, id, now);
    var total := Wrap(chargePointAmount + currentUserPoint.point);
    if total > MAX_POINT then
      Outcome(Thrown(OVER_CHARGE), l)
    else
      var stored := UserPoint(id, total, now);
      Outcome(Ok(stored), Ledger(l.points[id := stored],
                                 l.histories + [PointHistory(|l.histories| + 1, id, total, CHARGE, stored.updateMillis)]))
  }

  /** `usePoint`: reject when the balance is 0 or would go below 0, otherwise store the
      remainder and log a USE record that carries the requested amount. */
  function UseOutcome(l: Ledger, id: long, usePointAmount: long, now: long): (o: Outcome)
    ensures o.result.Thrown? ==> o.result.error == NOT_ENOUGH_VALANCE && o.after == l
    ensures InLongRange(Balance(l.points, id) - usePointAmount) ==>
              (o.result.Thrown? <==> Balance(l.points, id) == 0 || Balance(l.points, id) < usePointAmount)
    ensures o.result.Ok? ==>
              var r := o.result.value;
              && r.id == id && r.updateMillis == now && r.point >= MIN_POINT
              && Balance(l.points, id) != 0
              && (InLongRange(Balance(l.points, id) - usePointAmount) ==>
                    r.point == Balance(l.points, id) - usePointAmount)
              && o.after.points == l.points[id := r]
              && o.after.histories == l.histories + [PointHistory(|l.histories| + 1, id, usePointAmount, USE, now)]
  {
    var currentUserPoint := Lookup(l.points, id, now);
    var ownUserPoint := currentUserPoint.point;
    if ownUserPoint == MIN_POINT || Wrap(ownUserPoint - usePointAmount) < MIN_POINT then
      Outcome(Thrown(NOT_ENOUGH_VALANCE), l)
    else
      var remainingUserPoint := Wrap(ownUserPoint - usePointAmount);
      var stored := UserPoint(id, remainingUserPoint, now);
      Outcome(Ok(stored), Ledger(l.points[id := stored],
                                 l.histories + [PointHistory(|l.histories| + 1, id, usePointAmount, USE, stored.updateMillis)]))
  }

  /** A call touches only its own user's record and history. */
  lemma OtherUsersUntouched(l: Ledger, id: long, amount: long, now: long, u: long, charge: bool)
    requires u != id
    ensures var o := if charge then ChargeOutcome(l, id, amount, now) else UseOutcome(l, id, amount, now);
            && Lookup(o.after.points, u, now) == Lookup(l.points, u, now)
            && UserHistory(o.after.histories, u) == UserHistory(l.histories, u)
  {
    var o := if charge then ChargeOutcome(l, id, amount, now) else UseOutcome(l, id, amount, now);
    if o.result.Ok? {
      UserHistoryAppend(l.histories, o.after.histories[|l.histories|], u);
      assert o.after.histories == l.histories + [o.after.histories[|l.histories|]];
    }
  }

  /** A successful call adds exactly one record to the caller's history, at its end. */
  lemma OwnHistoryGrowsByOne(l: Ledger, id: long, amount: long, now: long, charge: bool)
    ensures var o := if charge then ChargeOutcome(l, id, amount, now) else UseOutcome(l, id, amount, now);
            var before := UserHistory(l.histories, id);
            var after := UserHistory(o.after.histories, id);
            && (o.result.Thrown? ==> after == before)
            && (o.result.Ok? ==>
                  && |after| == |before| + 1 && after[..|before|] == before
                  && after[|before|].userId == id
                  && after[|before|].kind == (if charge then CHARGE else USE)
                  && after[|before|].amount == (if charge then o.result.value.point else amount))
  {
    var o := if charge then ChargeOutcome(l, id, amount, now) else UseOutcome(l, id, amount, now);
    if o.result.Ok? {
      var x := o.after.histories[|l.histories|];
      assert o.after.histories == l.histories + [x];
      UserHistoryAppend(l.histories, x, id);
    }
  }

  /** With amounts in the ranges the controller lets through, charge keeps the balance in
      0 ..= MAX_POINT. */
  lemma ChargeKeepsBalanceInRange(l: Ledger, id: long, amount: long, now: long)
    requires MIN_POINT <= Balance(l.points, id) <= MAX_POINT
    requires 0 <= amount <= MAX_LONG - MAX_POINT
    ensures MIN_POINT <= Balance(ChargeOutcome(l, id, amount, now).after.points, id) <= MAX_POINT
  {
  }

  /** With a non-negative amount, use keeps the balance in 0 ..= MAX_POINT and never raises it. */
  lemma UseKeepsBalanceInRange(l: Ledger, id: long, amount: long, now: long)
    requires MIN_POINT <= Balance(l.points, id) <= MAX_POINT
    requires 0 <= amount
    ensures MIN_POINT <= Balance(UseOutcome(l, id, amount, now).after.points, id) <= Balance(l.points, id)
  {
    assert InLongRange(amount);
    assert InLongRange(Balance(l.points, id) - amount);
  }

  /** Called directly with a huge amount, chargePoint overflows: the wrapped total is negative,
      passes the cap check and is stored. Only the controller's range check prevents this. */
  lemma ChargeOverflowStoresNegativeBalance(l: Ledger, id: long, now: long)
    requires Balance(l.points, id) == 1
    ensures var o := ChargeOutcome(l, id, MAX_LONG, now);
            o.result.Ok? && o.result.value.point == MIN_LONG && Balance(o.after.points, id) < MIN_POINT
  {
  }

  /** Using 0 points on a zero balance is rejected, because a zero balance is rejected first. */
  lemma UseZeroOnZeroBalanceRejected(l: Ledger, id: long, now: long)
    requires Balance(l.points, id) == 0
    ensures UseOutcome(l, id, 0, now) == Outcome(Thrown(NOT_ENOUGH_VALANCE), l)
  {
  }

  /** Using 0 points on a positive balance succeeds and logs a USE record of 0. */
  lemma UseZeroOnPositiveBalanceAccepted(l: Ledger, id: long, now: long)
    requires 0 < Balance(l.points, id)
    ensures var o := UseOutcome(l, id, 0, now);
            o.result.Ok? && Balance(o.after.points, id) == Balance(l.points, id)
            && |o.after.histories| == |l.histories| + 1
  {
  }

  class UserPointService {
    const userPointTable: UserPointTable
    const pointHistoryTable: PointHistoryTable
    const lockFactory: ConcurrentAndReentraantLockFactory

    /** The service's view of its two tables. */
    function State(): Ledger
      reads userPointTable, pointHistoryTable
    {
      Ledger(userPointTable.table, pointHistoryTable.history)
    }

    constructor (userPointTable: UserPointTable, pointHistoryTable: PointHistoryTable,
                 lockFactory: ConcurrentAndReentraantLockFactory)
      ensures this.userPointTable == userPointTable
      ensures this.pointHistoryTable == pointHistoryTable
      ensures this.lockFactory == lockFactory
    {
      this.userPointTable := userPointTable;
      this.pointHistoryTable := pointHistoryTable;
      this.lockFactory := lockFactory;
    }

    /** Takes (creating if needed) the lock of `id`, then charges under it. */
    method ChargePoint(id: long, chargePointAmount: long, now: long) returns (r: Result<UserPoint>)
      modifies userPointTable, pointHistoryTable, lockFactory
      ensures Outcome(r, State()) == ChargeOutcome(old(State()), id, chargePointAmount, now)
      ensures lockFactory.lockMap.Keys == old(lockFactory.lockMap.Keys) + {id}
      ensures forall k :: k in old(lockFactory.lockMap) ==> lockFactory.lockMap[k] == old(lockFactory.lockMap[k])
    {
      var lock := lockFactory.GetLock(id);
      r := ChargeUnderLock(id, chargePointAmount, now);
    }

    /** The comparison variant: same steps under the single global lock; the lock map is untouched. */
    method ChargePointOnlyReentrantLock(id: long, chargePointAmount: long, now: long) returns (r: Result<UserPoint>)
      modifies userPointTable, pointHistoryTable
      ensures Outcome(r, State()) == ChargeOutcome(old(State()), id, chargePointAmount, now)
    {
      var lock := lockFactory.GetReentrantLock();
      r := ChargeUnderLock(id, chargePointAmount, now);
    }

    /** The protected section shared by both charge variants. */
    method ChargeUnderLock(id: long, chargePointAmount: long, now: long) returns (r: Result<UserPoint>)
      modifies userPointTable, pointHistoryTable
      ensures Outcome(r, State()) == ChargeOutcome(old(State()), id, chargePointAmount, now)
    {
      var currentUserPoint := userPointTable.SelectById(id, now);
      // the source reuses its parameter for the running total
      var total := Wrap(chargePointAmount + currentUserPoint.point);
      if total > MAX_POINT {
        return Thrown(OVER_CHARGE);
      }
      var afterChargeUserPoint := userPointTable.InsertOrUpdate(id, total, now);
      var _ := pointHistoryTable.Insert(id, total, CHARGE, afterChargeUserPoint.updateMillis);
      r := Ok(afterChargeUserPoint);
    }

    /** Debits `usePointAmount`; this path takes no lock. */
    method UsePoint(id: long, usePointAmount: long, now: long) returns (r: Result<UserPoint>)
      modifies userPointTable, pointHistoryTable
      ensures Outcome(r, State()) == UseOutcome(old(State()), id, usePointAmount, now)
    {
      var currentUserPoint := userPointTable.SelectById(id, now);
      var ownUserPoint := currentUserPoint.point;
      if ownUserPoint == MIN_POINT || Wrap(ownUserPoint - usePointAmount) < MIN_POINT {
        return Thrown(NOT_ENOUGH_VALANCE);
      }
      var remainingUserPoint := Wrap(ownUserPoint - usePointAmount);
      var afterUseUserPoint := userPointTable.InsertOrUpdate(id, remainingUserPoint, now);
      var _ := pointHistoryTable.Insert(id, usePointAmount, USE, afterUseUserPoint.updateMillis);
      r := Ok(afterUseUserPoint);
    }

    /** Read-only: the current record of `id`. */
    method SelectUserPoint(id: long, now: long) returns (r: UserPoint)
      ensures r == Lookup(State().points, id, now)
      ensures r.point == Balance(State().points, id)
    {
      r := userPointTable.SelectById(id, now);
    }

    /** Read-only: the history of `id` in insertion order. */
    method SelectUserPointHistory(id: long) returns (rs: seq<PointHistory>)
      ensures rs == UserHistory(State().histories, id)
    {
      rs := pointHistoryTable.SelectAllByUserId(id);
    }
  }
}
