/** The error table of the ledger and the "returns or throws" result of a service call. */
module ErrorCodes {

  const INPUT_VALID: int := 600
  const USER_VALID: int := 602

  datatype ErrorCode = ZERO_POINT | LIMIT_ONETIME_CHARGE_AMOUNT | OVER_CHARGE | NOT_ENOUGH_VALANCE
  {
    /** Status class: input errors are 600, user-state errors are 602. */
    function Status(): (s: int)
      ensures s == INPUT_VALID || s == USER_VALID
      ensures s == USER_VALID <==> this == NOT_ENOUGH_VALANCE
    {
      match this
      case ZERO_POINT => INPUT_VALID
      case LIMIT_ONETIME_CHARGE_AMOUNT => INPUT_VALID
      case OVER_CHARGE => INPUT_VALID
      case NOT_ENOUGH_VALANCE => USER_VALID
    }

    function Code(): (code: string)
    {
      match this
      case ZERO_POINT => "ZERO_POINT"
      case LIMIT_ONETIME_CHARGE_AMOUNT => "LIMIT_ONETIME_CHARGE_AMOUNT"
      case OVER_CHARGE => "OVER_CHARGE"
      case NOT_ENOUGH_VALANCE => "NOT_ENOUGH_VALANCE"
    }

    function Message(): (message: string)
    {
      match this
      case ZERO_POINT => "충천 포인트 0P"
      case LIMIT_ONETIME_CHARGE_AMOUNT => "최대 충천 포인트 초과"
      case OVER_CHARGE => "최대 잔고 초과"
      case NOT_ENOUGH_VALANCE => "잔여 포인트 부족"
    }
  }

  /** The two status classes are different numbers. */
  lemma StatusClassesDiffer()
    ensures INPUT_VALID == 600 && USER_VALID == 602 && INPUT_VALID != USER_VALID
  {
  }

  /** The rows of the table that callers and tests rely on. */
  lemma ErrorTable()
    ensures ZERO_POINT.Status() == 600 && ZERO_POINT.Code() == "ZERO_POINT"
    ensures LIMIT_ONETIME_CHARGE_AMOUNT.Status() == 600 && LIMIT_ONETIME_CHARGE_AMOUNT.Code() == "LIMIT_ONETIME_CHARGE_AMOUNT"
    ensures OVER_CHARGE.Status() == 600 && OVER_CHARGE.Code() == "OVER_CHARGE" && OVER_CHARGE.Message() == "최대 잔고 초과"
    ensures NOT_ENOUGH_VALANCE.Status() == 602 && NOT_ENOUGH_VALANCE.Code() == "NOT_ENOUGH_VALANCE"
    ensures NOT_ENOUGH_VALANCE.Message() == "잔여 포인트 부족"
  {
  }

  /** A code string identifies its error: no two constants share one. */
  lemma CodesDistinct(a: ErrorCode, b: ErrorCode)
    ensures a.Code() == b.Code() <==> a == b
  {
  }

  /** What a service call produces: its return value, or the CustomException it throws. */
  datatype Result<T> = Ok(value: T) | Thrown(error: ErrorCode)
}
