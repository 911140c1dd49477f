/** The request layer in front of the service: range checks on the amount, then a call
    whose result (or exception) is passed on unchanged. HTTP plumbing is not modelled;
    a response is one of three shapes. */
module PointController {
  import opened Longs
  import opened UserPoints
  import opened ErrorCodes
  import opened Tables
  import opened PointService

  /** 400 with an empty body, 200 with the record, or the service's exception. */
  datatype Response = BadRequest | Success(body: UserPoint) | Failure(error: ErrorCode)

  datatype Reply = Reply(response: Response, after: Ledger)

  /** Pass a service outcome on unchanged. */
  function Respond(o: Outcome): (r: Reply)
    ensures r.after == o.after
    ensures !r.response.BadRequest?
    ensures o.result.Ok? <==> r.response.Success?
    ensures r.response.Success? ==> r.response.body == o.result.value
    ensures r.response.Failure? ==> r.response.error == o.result.error
  {
    match o.result
    case Ok(p) => Reply(Success(p), o.after)
    case Thrown(e) => Reply(Failure(e), o.after)
  }

  /** `charge`: the amount must be at least 1 and at most the per-charge limit. */
  function Charge(l: Ledger, id: long, chargeAmount: long, now: long): (r: Reply)
    ensures r.response.BadRequest? <==> chargeAmount < 1 || chargeAmount > 100_000
    ensures r.response.BadRequest? ==> r.after == l
    ensures 1 <= chargeAmount <= 100_000 ==> r == Respond(ChargeOutcome(l, id, chargeAmount, now))
  {
    if chargeAmount <= MIN_POINT then
      Reply(BadRequest, l)
    else if chargeAmount > MAX_POINT_PER_ONCE then
      Reply(BadRequest, l)
    else
      Respond(ChargeOutcome(l, id, chargeAmount, now))
  }

  /** `use`: the amount must lie in 0 ..= MAX_POINT; both ends are accepted. */
  function Use(l: Ledger, id: long, usePointAmount: long, now: long): (r: Reply)
    ensures r.response.BadRequest? <==> usePointAmount < 0 || usePointAmount > 1_000_000
    ensures r.response.BadRequest? ==> r.after == l
    ensures 0 <= usePointAmount <= 1_000_000 ==> r == Respond(UseOutcome(l, id, usePointAmount, now))
  {
    if usePointAmount < MIN_POINT || usePointAmount > MAX_POINT then
      Reply(BadRequest, l)
    else
      Respond(UseOutcome(l, id, usePointAmount, now))
  }

  /** The out-of-range inputs the tests send all get 400 (a charge of 993,001 included, which
      never reaches the service), and the range ends are let through. */
  lemma BoundaryInputs(l: Ledger, id: long, now: long)
    ensures Charge(l, id, 0, now).response.BadRequest?
    ensures Charge(l, id, 100_001, now).response.BadRequest?
    ensures Charge(l, id, 993_001, now) == Reply(BadRequest, l)
    ensures Use(l, id, -1, now).response.BadRequest?
    ensures Use(l, id, 1_000_001, now).response.BadRequest?
    ensures !Charge(l, id, 1, now).response.BadRequest? && !Charge(l, id, 100_000, now).response.BadRequest?
    ensures !Use(l, id, 0, now).response.BadRequest? && !Use(l, id, 1_000_000, now).response.BadRequest?
  {
  }

  /** A resulting balance of exactly MAX_POINT is accepted; one point more is OVER_CHARGE. */
  lemma ChargeUpToTheCap(l: Ledger, id: long, amount: long, now: long)
    requires 1 <= amount < 100_000
    requires Balance(l.points, id) == MAX_POINT - amount
    ensures Charge(l, id, amount, now).response == Success(UserPoint(id, MAX_POINT, now))
    ensures Charge(l, id, amount + 1, now).response.Failure?
    ensures Charge(l, id, amount + 1, now).response.error == OVER_CHARGE
  {
  }
}
