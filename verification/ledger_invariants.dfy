/** The ledger as a sequential state machine driven by requests through the controller.
    Each request is modelled as one atomic step. The invariant kept by every run: balances
    stay in 0 ..= MAX_POINT, the log is numbered 1, 2, 3, ..., every logged user has a
    record, and each user's history replays to their balance. */
module LedgerInvariants {
  import opened Longs
  import opened UserPoints
  import opened ErrorCodes
  import opened Tables
  import opened PointService
  import opened PointController

  datatype Request =
    | ChargeRequest(id: long, amount: long, at: long)
    | UseRequest(id: long, amount: long, at: long)

  function Serve(l: Ledger, req: Request): (r: Reply)
  {
    match req
    case ChargeRequest(id, amount, at) => Charge(l, id, amount, at)
    case UseRequest(id, amount, at) => Use(l, id, amount, at)
  }

  /** The ledger after serving `reqs` one after another. */
  function RunAll(l: Ledger, reqs: seq<Request>): (final: Ledger)
    decreases |reqs|
  {
    if reqs == [] then l else RunAll(Serve(l, reqs[0]).after, reqs[1..])
  }

  /** The balance a user's history implies: a CHARGE record sets it (it carries the new
      total), a USE record subtracts its amount. */
  function Replay(h: seq<PointHistory>): (balance: int)
    decreases |h|
  {
    if h == [] then 0
    else
      var last := h[|h| - 1];
      match last.kind
      case CHARGE => last.amount
      case USE => Replay(h[..|h| - 1]) - last.amount
  }

  lemma ReplayAppend(h: seq<PointHistory>, x: PointHistory)
    ensures Replay(h + [x]) == match x.kind case CHARGE => x.amount case USE => Replay(h) - x.amount
  {
    assert (h + [x])[..|h|] == h;
  }

  ghost predicate BalancesInRange(l: Ledger)
  {
    forall u :: u in l.points ==> l.points[u].id == u && MIN_POINT <= l.points[u].point <= MAX_POINT
  }

  ghost predicate LogNumbered(l: Ledger)
  {
    forall i :: 0 <= i < |l.histories| ==> l.histories[i].id == i + 1
  }

  ghost predicate LoggedUsersKnown(l: Ledger)
  {
    forall i :: 0 <= i < |l.histories| ==> l.histories[i].userId in l.points
  }

  ghost predicate HistoryReplaysToBalance(l: Ledger)
  {
    forall u :: u in l.points ==> Replay(UserHistory(l.histories, u)) == l.points[u].point
  }

  ghost predicate Inv(l: Ledger)
  {
    BalancesInRange(l) && LogNumbered(l) && LoggedUsersKnown(l) && HistoryReplaysToBalance(l)
  }

  /** The service starts from two empty tables. */
  lemma InitialLedgerValid()
    ensures Inv(Ledger(map[], []))
  {
  }

  /** Under the invariant, any user's history (empty for an unknown user) replays to the
      balance a query reports. */
  lemma HistoryDeterminesBalance(l: Ledger, u: long, now: long)
    requires Inv(l)
    ensures Replay(UserHistory(l.histories, u)) == Lookup(l.points, u, now).point
  {
    if u !in l.points {
      UserHistoryOfAbsentUser(l.histories, u);
    }
  }

  /** An in-range record written for its own id keeps every balance in range. */
  lemma WriteKeepsBalancesInRange(l: Ledger, id: long, up: UserPoint)
    requires BalancesInRange(l)
    requires up.id == id && MIN_POINT <= up.point <= MAX_POINT
    ensures BalancesInRange(Ledger(l.points[id := up], l.histories))
  {
  }

  /** A record numbered one past the log's length keeps the log numbered. */
  lemma AppendKeepsLogNumbered(l: Ledger, x: PointHistory)
    requires LogNumbered(l)
    requires x.id == |l.histories| + 1
    ensures LogNumbered(Ledger(l.points, l.histories + [x]))
  {
    var h' := l.histories + [x];
    forall i | 0 <= i < |h'| ensures h'[i].id == i + 1 {
      if i < |l.histories| { assert h'[i] == l.histories[i]; }
    }
  }

  /** Logging a record of `id` while writing a record for `id` keeps every logged user known. */
  lemma WriteKeepsLoggedUsersKnown(l: Ledger, id: long, up: UserPoint, x: PointHistory)
    requires LoggedUsersKnown(l)
    requires x.userId == id
    ensures LoggedUsersKnown(Ledger(l.points[id := up], l.histories + [x]))
  {
    var l' := Ledger(l.points[id := up], l.histories + [x]);
    forall i | 0 <= i < |l'.histories| ensures l'.histories[i].userId in l'.points {
      if i < |l.histories| { assert l'.histories[i] == l.histories[i]; }
    }
  }

  /** Writing `up` for `id` and logging a record of `id` that replays to it keeps every
      user's history replaying to their balance. */
  lemma WriteKeepsReplay(l: Ledger, id: long, up: UserPoint, x: PointHistory)
    requires HistoryReplaysToBalance(l)
    requires x.userId == id
    requires Replay(UserHistory(l.histories, id) + [x]) == up.point
    ensures HistoryReplaysToBalance(Ledger(l.points[id := up], l.histories + [x]))
  {
    var l' := Ledger(l.points[id := up], l.histories + [x]);
    forall u | u in l'.points
      ensures Replay(UserHistory(l'.histories, u)) == l'.points[u].point
    {
      UserHistoryAppend(l.histories, x, u);
      if u == id {
        assert UserHistory(l'.histories, u) == UserHistory(l.histories, id) + [x];
      } else {
        assert UserHistory(l'.histories, u) == UserHistory(l.histories, u);
        assert l'.points[u] == l.points[u];
      }
    }
  }

  /** Writing record `up` for `id` and logging `x` keeps the invariant when `x` replays to `up`. */
  lemma WritePreservesInv(l: Ledger, id: long, up: UserPoint, x: PointHistory)
    requires Inv(l)
    requires up.id == id && MIN_POINT <= up.point <= MAX_POINT
    requires x.id == |l.histories| + 1 && x.userId == id
    requires Replay(UserHistory(l.histories, id) + [x]) == up.point
    ensures Inv(Ledger(l.points[id := up], l.histories + [x]))
  {
    WriteKeepsBalancesInRange(l, id, up);
    AppendKeepsLogNumbered(l, x);
    WriteKeepsLoggedUsersKnown(l, id, up, x);
    WriteKeepsReplay(l, id, up, x);
  }

  /** One request through the controller keeps the invariant. */
  lemma ServePreservesInv(l: Ledger, req: Request)
    requires Inv(l)
    ensures Inv(Serve(l, req).after)
  {
    var r := Serve(l, req);
    if !r.response.Success? {
      return;
    }
    var id := req.id;
    var up := r.response.body;
    var x := r.after.histories[|l.histories|];
    HistoryDeterminesBalance(l, id, req.at);
    match req
    case ChargeRequest(_, amount, at) =>
      assert r.after == ChargeOutcome(l, id, amount, at).after;
      ReplayAppend(UserHistory(l.histories, id), x);
      WritePreservesInv(l, id, up, x);
    case UseRequest(_, amount, at) =>
      assert r.after == UseOutcome(l, id, amount, at).after;
      ReplayAppend(UserHistory(l.histories, id), x);
      WritePreservesInv(l, id, up, x);
  }

  /** Every run of requests through the controller keeps the invariant; in particular every
      balance stays within 0 ..= MAX_POINT. */
  lemma {:induction false} RunAllPreservesInv(l: Ledger, reqs: seq<Request>)
    requires Inv(l)
    ensures Inv(RunAll(l, reqs))
    ensures forall u :: MIN_POINT <= Balance(RunAll(l, reqs).points, u) <= MAX_POINT
    decreases |reqs|
  {
    if reqs != [] {
      ServePreservesInv(l, reqs[0]);
      RunAllPreservesInv(Serve(l, reqs[0]).after, reqs[1..]);
    }
  }

  /** The change a request makes to user `u`'s balance if it is accepted, 0 otherwise. */
  function Effect(l: Ledger, req: Request, u: long): (delta: int)
  {
    if Serve(l, req).response.Success? && req.id == u then
      (if req.ChargeRequest? then req.amount else -req.amount)
    else 0
  }

  /** The sum of the accepted requests' effects on `u` along a run. */
  function NetEffect(l: Ledger, reqs: seq<Request>, u: long): (delta: int)
    decreases |reqs|
  {
    if reqs == [] then 0 else Effect(l, reqs[0], u) + NetEffect(Serve(l, reqs[0]).after, reqs[1..], u)
  }

  /** One request changes `u`'s balance by exactly its effect: no lost and no doubled update. */
  lemma ServeBalance(l: Ledger, req: Request, u: long)
    requires Inv(l)
    ensures Balance(Serve(l, req).after.points, u) == Balance(l.points, u) + Effect(l, req, u)
  {
  }

  /** After any run, a balance is its start plus the accepted charges minus the accepted uses. */
  lemma {:induction false} RunAllBalance(l: Ledger, reqs: seq<Request>, u: long)
    requires Inv(l)
    ensures Balance(RunAll(l, reqs).points, u) == Balance(l.points, u) + NetEffect(l, reqs, u)
    decreases |reqs|
  {
    if reqs != [] {
      ServeBalance(l, reqs[0], u);
      ServePreservesInv(l, reqs[0]);
      RunAllBalance(Serve(l, reqs[0]).after, reqs[1..], u);
    }
  }

  /** `n` copies of one request. */
  function Repeat(req: Request, n: nat): (r: seq<Request>)
    ensures |r| == n
    ensures forall i :: 0 <= i < n ==> r[i] == req
  {
    if n == 0 then [] else [req] + Repeat(req, n - 1)
  }

  /** An accepted-range charge that stays within the cap adds exactly its amount. */
  lemma ChargeWithinCap(l: Ledger, id: long, amount: long, at: long)
    requires 1 <= amount <= MAX_POINT_PER_ONCE
    requires Balance(l.points, id) + amount <= MAX_POINT
    ensures Serve(l, ChargeRequest(id, amount, at)).response.Success?
    ensures Balance(Serve(l, ChargeRequest(id, amount, at)).after.points, id) == Balance(l.points, id) + amount
  {
    assert Serve(l, ChargeRequest(id, amount, at)) == Respond(ChargeOutcome(l, id, amount, at));
  }

  /** Running `n` copies of a request serves the first copy, then the other `n - 1`. */
  lemma RunAllRepeat(l: Ledger, req: Request, n: nat)
    requires n > 0
    ensures RunAll(l, Repeat(req, n)) == RunAll(Serve(l, req).after, Repeat(req, n - 1))
  {
    var rest := Repeat(req, n - 1);
    assert Repeat(req, n) == [req] + rest;
    assert ([req] + rest)[1..] == rest;
  }

  /** `n` copies of `amount` are one copy plus `n - 1` copies, and never negative. */
  lemma MultipleStep(n: nat, amount: nat)
    requires n > 0
    ensures n * amount == amount + (n - 1) * amount
    ensures (n - 1) * amount >= 0
  {
  }

  /** `n` charges of `amount` on one user add up to `total == n * amount` while the
      balance plus `total` stays within the cap. */
  lemma {:induction false} ChargesAddUp(l: Ledger, id: long, amount: long, at: long, n: nat, total: int)
    requires 1 <= amount <= MAX_POINT_PER_ONCE
    requires total == n * amount
    requires Balance(l.points, id) + total <= MAX_POINT
    ensures Balance(RunAll(l, Repeat(ChargeRequest(id, amount, at), n)).points, id) == Balance(l.points, id) + total
    decreases n
  {
    if n > 0 {
      var req := ChargeRequest(id, amount, at);
      MultipleStep(n, amount);
      ChargeWithinCap(l, id, amount, at);
      RunAllRepeat(l, req, n);
      ChargesAddUp(Serve(l, req).after, id, amount, at, n - 1, total - amount);
    }
  }

  /** `n` charges of `amount` on one user add up exactly while the total stays within the cap. */
  lemma RepeatedChargesAccumulate(l: Ledger, id: long, amount: long, at: long, n: nat)
    requires 1 <= amount <= MAX_POINT_PER_ONCE
    requires Balance(l.points, id) + n * amount <= MAX_POINT
    ensures Balance(RunAll(l, Repeat(ChargeRequest(id, amount, at), n)).points, id) == Balance(l.points, id) + n * amount
  {
    ChargesAddUp(l, id, amount, at, n, n * amount);
  }

  /** The sequential reading of the concurrency test: from an empty ledger, 100 charges of 1,000
      on one user leave exactly 100,000. */
  lemma HundredChargesOfThousand(id: long, at: long)
    ensures Balance(RunAll(Ledger(map[], []), Repeat(ChargeRequest(id, 1_000, at), 100)).points, id) == 100_000
  {
    RepeatedChargesAccumulate(Ledger(map[], []), id, 1_000, at, 100);
  }

  /** The integration scenario: from an empty ledger, charge 10,000 then use 3,000. */
  lemma ChargeThenUse(id: long, t1: long, t2: long)
    ensures var l0 := Ledger(map[], []);
            var l1 := Charge(l0, id, 10_000, t1).after;
            var r2 := Use(l1, id, 3_000, t2);
            && Charge(l0, id, 10_000, t1).response == Success(UserPoint(id, 10_000, t1))
            && r2.response == Success(UserPoint(id, 7_000, t2))
            && UserHistory(r2.after.histories, id) == [PointHistory(1, id, 10_000, CHARGE, t1), PointHistory(2, id, 3_000, USE, t2)]
  {
    var l0 := Ledger(map[], []);
    var c1 := PointHistory(1, id, 10_000, CHARGE, t1);
    var u2 := PointHistory(2, id, 3_000, USE, t2);
    var l1 := Ledger(map[id := UserPoint(id, 10_000, t1)], [c1]);
    assert Balance(l0.points, id) == 0;
    assert Charge(l0, id, 10_000, t1) == Reply(Success(UserPoint(id, 10_000, t1)), l1);
    assert Balance(l1.points, id) == 10_000;
    var l2 := Ledger(l1.points[id := UserPoint(id, 7_000, t2)], [c1, u2]);
    assert Use(l1, id, 3_000, t2) == Reply(Success(UserPoint(id, 7_000, t2)), l2);
    UserHistoryAppend([], c1, id);
    assert [] + [c1] == [c1];
    UserHistoryAppend([c1], u2, id);
    assert [c1] + [u2] == [c1, u2];
  }

  /** A second charge logs the new total, not the charged amount, and charging twice is not
      idempotent: two records, and the balance moves twice. */
  lemma SecondChargeLogsTotal(id: long, t1: long, t2: long)
    ensures var l0 := Ledger(map[], []);
            var l1 := Charge(l0, id, 10_000, t1).after;
            var l2 := Charge(l1, id, 10_000, t2).after;
            && Balance(l2.points, id) == 20_000
            && l2.histories == [PointHistory(1, id, 10_000, CHARGE, t1), PointHistory(2, id, 20_000, CHARGE, t2)]
  {
  }

  /** The exception scenario: with 7,000 points, charging 993,001 and using 7,001 both fail,
      with the table's status, code and message, and change nothing. */
  lemma OverChargeAndNotEnough(l: Ledger, id: long, now: long)
    requires Balance(l.points, id) == 7_000
    ensures ChargeOutcome(l, id, 993_001, now) == Outcome(Thrown(OVER_CHARGE), l)
    ensures UseOutcome(l, id, 7_001, now) == Outcome(Thrown(NOT_ENOUGH_VALANCE), l)
    ensures OVER_CHARGE.Status() == 600 && NOT_ENOUGH_VALANCE.Status() == 602
  {
  }
}
