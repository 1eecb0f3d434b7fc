/** The shapes the `/calculate` endpoint reads and writes: the request, the success
    body and the error body, with the error codes and messages the handler uses. */
module Api {
  import opened Json

  /** The closed set of operations a `CalculationRequest` may name. */
  datatype Operation = Add | Subtract | Multiply | Divide

  /** The string a client writes for an operation. */
  function Name(op: Operation): string
  {
    match op
    case Add => "add"
    case Subtract => "subtract"
    case Multiply => "multiply"
    case Divide => "divide"
  }

  /** The three properties destructured from the body. Their declared types are not
      enforced at run time, so each is an arbitrary JSON value. */
  datatype Request = Request(operation: Value, a: Value, b: Value)

  datatype ErrorCode = ValidationError | IllegalCalculation | UnsupportedCalculation | CalculationError

  /** The `error` field written on the wire. */
  function Code(e: ErrorCode): string
  {
    match e
    case ValidationError => "VALIDATION_ERROR"
    case IllegalCalculation => "ILLEGAL_CALCULATION"
    case UnsupportedCalculation => "UNSUPPORTED_CALCULATION"
    case CalculationError => "CALCULATION_ERROR"
  }

  /** No two error codes share a wire string, so a client can tell every error apart. */
  lemma CodesDistinct(e: ErrorCode, e': ErrorCode)
    ensures Code(e) == Code(e') ==> e == e'
  {
  }

  const InvalidOperandTypes := "Invalid types provided for operands"
  const UnsupportedType := "Unsupported calculation type provided"
  const DivideByZero := "Cannot divide by zero"
  const NotSupportedByApi := "Calculation not supported by API"
  const EndpointFailure := "An error occurred with the calculation endpoint"

  /** A JSON body passed to `res.json`: a `CalculationResponse` or an `ErrorResponse`.
      The success fields are JSON values because the handler builds that body even on
      paths where the operands were never numbers. */
  datatype Payload =
    | Calculated(result: Value, operation: Value, a: Value, b: Value)
    | Failed(error: ErrorCode, message: string)

  datatype Response = Response(status: int, payload: Payload)
}
