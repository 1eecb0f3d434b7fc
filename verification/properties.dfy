/** What a client of `POST /calculate` observes from the handler as written, for every
    way JavaScript may coerce a non-number operand. */
module Properties {
  import opened Json
  import opened Api
  import opened Express
  import opened Calculate

  /** A non-number operand is rejected first, whatever the operation names. */
  lemma InvalidOperandsRejected(js: Coercion, req: Request)
    requires !req.a.Num? || !req.b.Num?
    ensures Respond(js, Some(req)) == Response(400, Failed(ValidationError, "Invalid types provided for operands"))
  {
  }

  /** With numeric operands, a name outside the four operations is rejected. */
  lemma UnsupportedOperationRejected(js: Coercion, req: Request)
    requires req.a.Num? && req.b.Num?
    requires forall op :: req.operation != Str(Name(op))
    ensures Respond(js, Some(req)) == Response(400, Failed(ValidationError, "Unsupported calculation type provided"))
  {
  }

  /** Dividing by any non-positive number is refused; a positive divisor never is. */
  lemma DivideGuard(js: Coercion, a: real, b: real)
    ensures var r := Respond(js, Some(Request(Str("divide"), Num(a), Num(b))));
            && (b <= 0.0 ==> r == Response(400, Failed(IllegalCalculation, "Cannot divide by zero")))
            && (b > 0.0 ==> r.status == 200 && r.payload.result == Num(a / b))
  {
  }

  /** A valid request gets the arithmetic of the operation it names. */
  lemma ResultByOperation(js: Coercion, op: Operation, a: real, b: real)
    requires op == Divide ==> b > 0.0
    ensures var r := Respond(js, Some(Request(Str(Name(op)), Num(a), Num(b))));
            && r.status == 200
            && (op == Add ==> r.payload.result == Num(a + b))
            && (op == Subtract ==> r.payload.result == Num(a - b))
            && (op == Multiply ==> r.payload.result == Num(a * b))
            && (op == Divide ==> r.payload.result == Num(a / b))
  {
  }

  /** A success has status 200 and echoes the operation and both operands unchanged
      beside a numeric result; every other response is an error body. */
  lemma SuccessEchoesRequest(js: Coercion, body: Option<Request>)
    ensures var r := Respond(js, body);
            && (r.payload.Calculated? <==> r.status == 200)
            && (r.status == 200 ==>
                  && body.Some?
                  && r.payload.operation == body.value.operation
                  && r.payload.a == body.value.a
                  && r.payload.b == body.value.b
                  && r.payload.result.Num?)
  {
  }

  /** The checks in their order: the type check before the membership check before the
      divide guard, and a request that fails any of them never sees a 200. */
  lemma ValidationOrder(js: Coercion, req: Request)
    ensures var r := Respond(js, Some(req));
            && (!req.a.Num? || !req.b.Num? ==> r.payload == Failed(ValidationError, InvalidOperandTypes))
            && (req.a.Num? && req.b.Num? && !Includes(SupportedNames, req.operation) ==>
                  r.payload == Failed(ValidationError, UnsupportedType))
            && (r.status == 200 <==> Valid(req))
  {
  }

  /** Each request gets exactly one response on the wire, the first send; when any send
      the handler issued is an error, the client did not get a success. */
  lemma FirstSendIsDelivered(js: Coercion, body: Option<Request>)
    ensures var out := Handle(js, body);
            && HeadersSent(out.res)
            && Respond(js, body) == out.res.issued[0]
            && ((exists i :: 0 <= i < |out.res.issued| && out.res.issued[i].payload.Failed?) ==>
                  Respond(js, body).payload.Failed?)
  {
  }

  /** The membership list and the switch cases agree, so a request reaching `default`
      has already failed the membership check. */
  lemma MembershipMatchesSwitch(v: Value)
    ensures Includes(SupportedNames, v) <==> Dispatch(v).Some?
  {
  }

  /** The `UNSUPPORTED_CALCULATION` error is never what a client receives. */
  lemma UnsupportedCalculationNeverDelivered(js: Coercion, body: Option<Request>)
    ensures Respond(js, body).payload != Failed(UnsupportedCalculation, "Calculation not supported by API")
  {
  }

  /** A missing body fails destructuring and ends in the 500 of the `catch` block. */
  lemma AbsentBodyFails(js: Coercion)
    ensures Respond(js, None) == Response(500, Failed(CalculationError, "An error occurred with the calculation endpoint"))
    ensures !Handle(js, None).escaped
  {
  }

  /** The default branch is reached and issues its send, but the membership check's
      error is already out: the handler issues three sends and the last one throws out
      of the route. */
  lemma MissingReturnsIssueExtraSends(js: Coercion)
    ensures var out := Handle(js, Some(Request(Str("mod"), Num(1.0), Num(1.0))));
            && out.res.issued == [
                 Response(400, Failed(ValidationError, UnsupportedType)),
                 Response(400, Failed(UnsupportedCalculation, NotSupportedByApi)),
                 Response(500, Failed(CalculationError, EndpointFailure))]
            && out.escaped
  {
  }

  /** Example requests: add 2 and 3, divide 10 by 0 and by -2, and `mod`. */
  lemma Scenarios(js: Coercion)
    ensures Respond(js, Some(Request(Str("add"), Num(2.0), Num(3.0))))
            == Response(200, Calculated(Num(5.0), Str("add"), Num(2.0), Num(3.0)))
    ensures Respond(js, Some(Request(Str("divide"), Num(10.0), Num(0.0)))) == DivisorRejected
    ensures Respond(js, Some(Request(Str("divide"), Num(10.0), Num(-2.0)))) == DivisorRejected
    ensures Respond(js, Some(Request(Str("mod"), Num(1.0), Num(1.0)))) == OperationRejected
  {
    assert Evaluate(Some(Request(Str("add"), Num(2.0), Num(3.0))))
           == Response(200, Calculated(Num(5.0), Str("add"), Num(2.0), Num(3.0)));
    assert Evaluate(Some(Request(Str("divide"), Num(10.0), Num(0.0)))) == DivisorRejected;
    assert Evaluate(Some(Request(Str("divide"), Num(10.0), Num(-2.0)))) == DivisorRejected;
    assert Evaluate(Some(Request(Str("mod"), Num(1.0), Num(1.0)))) == OperationRejected;
  }
}
