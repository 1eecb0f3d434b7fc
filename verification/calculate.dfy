/** The `POST /calculate` handler: its operation list and switch, the short-circuit
    reading `Evaluate`, the handler as written (error sends without `return`)
    and the same handler with a `return` after every error send. */
module Calculate {
  import opened Json
  import opened Api
  import opened Express

  /** The array the membership check searches. */
  const SupportedNames: seq<string> := ["add", "subtract", "multiply", "divide"]

  /** `list.includes(v)` on a list of strings. Under SameValueZero only a string equal
      to an element matches. */
  function Includes(list: seq<string>, v: Value): (found: bool)
    ensures found <==> v.Str? && exists i :: 0 <= i < |list| && list[i] == v.s
  {
    if |list| == 0 then false
    else (v.Str? && list[0] == v.s) || Includes(list[1..], v)
  }

  /** The membership list holds exactly the four operation names. */
  lemma SupportedNamesAreNames(v: Value)
    ensures Includes(SupportedNames, v) <==> exists op :: v == Str(Name(op))
  {
    if Includes(SupportedNames, v) {
      var i :| 0 <= i < |SupportedNames| && SupportedNames[i] == v.s;
      assert v == Str(Name([Add, Subtract, Multiply, Divide][i]));
    }
  }

  /** The cases of the `switch`, compared with `===`: `None` is the `default` branch. */
  function Dispatch(v: Value): (r: Option<Operation>)
    ensures r.Some? ==> v == Str(Name(r.value))
    ensures forall op :: v == Str(Name(op)) ==> r == Some(op)
  {
    match v
    case Str(s) =>
      if s == "add" then Some(Add)
      else if s == "subtract" then Some(Subtract)
      else if s == "multiply" then Some(Multiply)
      else if s == "divide" then Some(Divide)
      else None
    case _ => None
  }

  /** The arithmetic of one operation on two numbers. */
  function Compute(op: Operation, a: real, b: real): real
    requires op == Divide ==> b != 0.0
  {
    match op
    case Add => a + b
    case Subtract => a - b
    case Multiply => a * b
    case Divide => a / b
  }

  /** A request the endpoint accepts: numeric operands, a supported operation, and a
      positive divisor when dividing. */
  predicate Valid(req: Request)
  {
    && req.a.Num?
    && req.b.Num?
    && exists op :: req.operation == Str(Name(op)) && (op == Divide ==> req.b.n > 0.0)
  }

  const TypesRejected := Response(400, Failed(ValidationError, InvalidOperandTypes))
  const OperationRejected := Response(400, Failed(ValidationError, UnsupportedType))
  const DivisorRejected := Response(400, Failed(IllegalCalculation, DivideByZero))
  const EndpointFailed := Response(500, Failed(CalculationError, EndpointFailure))

  /** The evaluation the endpoint stands for: the checks in their fixed order, the first
      failing one deciding the response, otherwise the computed result echoed with the
      request. `None` is a body that cannot be destructured. */
  function Evaluate(body: Option<Request>): (r: Response)
    ensures r.status == 500 <==> body.None?
    ensures r.status == 200 <==> body.Some? && Valid(body.value)
    ensures r.status == 200 || r.status == 400 || r.status == 500
    ensures r.status == 200 <==> r.payload.Calculated?
    ensures r.payload.Failed? ==> r.payload.error != UnsupportedCalculation
  {
    match body
    case None => EndpointFailed
    case Some(req) =>
      if !(req.a.Num? && req.b.Num?) then TypesRejected
      else match Dispatch(req.operation)
        case None => OperationRejected
        case Some(op) =>
          if op == Divide && req.b.n <= 0.0 then DivisorRejected
          else Response(200, Calculated(Num(Compute(op, req.a.n, req.b.n)), req.operation, req.a, req.b))
  }

  /** How JavaScript treats an operand that is not a number in `b <= 0` and in the four
      operators, and whether that coercion throws (`None`). The model fixes none of it:
      every result below holds for every `Coercion`. */
  datatype Coercion = Coercion(atMostZero: Value -> bool, apply: (Operation, Value, Value) -> Option<Value>)

  /** `b <= 0`. */
  function AtMostZero(js: Coercion, b: Value): bool
  {
    match b
    case Num(n) => n <= 0.0
    case _ => js.atMostZero(b)
  }

  /** `a + b`, `a - b`, `a * b` or `a / b`; `None` when the operator throws. Dividing a
      number by zero gives an infinity or NaN, which `Other` stands for here. */
  function Arith(js: Coercion, op: Operation, a: Value, b: Value): Option<Value>
  {
    if a.Num? && b.Num? then
      if op == Divide && b.n == 0.0 then Some(Other)
      else Some(Num(Compute(op, a.n, b.n)))
    else js.apply(op, a, b)
  }

  /** The operand type check; the handler carries on after its send. */
  function CheckOperands(req: Request, res: Res): (s: Step)
    ensures req.a.Num? && req.b.Num? ==> s == Normal(res)
    ensures !(req.a.Num? && req.b.Num?) ==>
              && HeadersSent(s.res)
              && Delivered(s.res) == if HeadersSent(res) then Delivered(res) else Some(TypesRejected)
  {
    if req.a.Num? && req.b.Num? then Normal(res)
    else SendJson(Status(res, 400), TypesRejected.payload)
  }

  /** The operation membership check; the handler carries on after its send. */
  function CheckOperation(req: Request, res: Res): (s: Step)
    ensures (exists op :: req.operation == Str(Name(op))) ==> s == Normal(res)
    ensures (forall op :: req.operation != Str(Name(op))) ==>
              && HeadersSent(s.res)
              && Delivered(s.res) == if HeadersSent(res) then Delivered(res) else Some(OperationRejected)
  {
    SupportedNamesAreNames(req.operation);
    if Includes(SupportedNames, req.operation) then Normal(res)
    else SendJson(Status(res, 400), OperationRejected.payload)
  }

  /** The `switch` together with the value `result` holds when it is left. */
  datatype Switched = Switched(step: Step, result: Value)

  /** A response already out stays the one delivered. A request that passed both
      checks with nothing sent yet either has its divisor refused, or leaves the switch
      normally, still unsent, holding the operation's arithmetic. */
  function Switch(js: Coercion, req: Request, res: Res): (sw: Switched)
    ensures HeadersSent(res) ==> Delivered(sw.step.res) == Delivered(res)
    ensures !HeadersSent(res) && req.a.Num? && req.b.Num? && Dispatch(req.operation).Some? ==>
              var op := Dispatch(req.operation).value;
              if op == Divide && req.b.n <= 0.0 then sw.step.Normal? && Delivered(sw.step.res) == Some(DivisorRejected)
              else sw.step == Normal(res) && sw.result == Num(Compute(op, req.a.n, req.b.n))
  {
    match Dispatch(req.operation)
    case None =>
      Switched(SendJson(Status(res, 400), Failed(UnsupportedCalculation, NotSupportedByApi)), Num(0.0))
    case Some(op) =>
      var guard :=
        if op == Divide && AtMostZero(js, req.b) then SendJson(Status(res, 400), DivisorRejected.payload)
        else Normal(res);
      if guard.Thrown? then Switched(guard, Num(0.0))
      else match Arith(js, op, req.a, req.b)
        case None => Switched(Thrown(guard.res), Num(0.0))
        case Some(v) => Switched(guard, v)
  }

  /** The `try` block after destructuring: the two checks, the switch and the final
      `res.json(response)`, none of the error sends followed by a `return`. */
  function TryBlock(js: Coercion, req: Request): (s: Step)
    ensures Delivered(s.res) == Some(Evaluate(Some(req)))
    ensures s.Thrown? <==> Evaluate(Some(req)).status == 400
    ensures s.Normal? ==> |s.res.issued| == 1
  {
    var s1 := CheckOperands(req, Fresh);
    if s1.Thrown? then s1 else
    var s2 := CheckOperation(req, s1.res);
    if s2.Thrown? then s2 else
    var sw := Switch(js, req, s2.res);
    if sw.step.Thrown? then sw.step else
    SendJson(sw.step.res, Calculated(sw.result, req.operation, req.a, req.b))
  }

  /** The final response object, and whether an exception left the route handler. */
  datatype Outcome = Outcome(res: Res, escaped: bool)

  /** The `catch` block: a 500 send, which itself throws when a response is already out. */
  function Catch(res: Res): (out: Outcome)
    ensures out.escaped <==> HeadersSent(res)
    ensures Delivered(out.res) == if HeadersSent(res) then Delivered(res) else Some(EndpointFailed)
    ensures !HeadersSent(res) ==> |out.res.issued| == 1
  {
    var s := SendJson(Status(res, 500), EndpointFailed.payload);
    Outcome(s.res, s.Thrown?)
  }

  /** The handler as written. A body that cannot be destructured throws at once into
      the `catch` block. */
  function Handle(js: Coercion, body: Option<Request>): (out: Outcome)
    ensures Delivered(out.res) == Some(Evaluate(body))
    ensures out.escaped <==> Evaluate(body).status == 400
    ensures |out.res.issued| == 1 <==> !out.escaped
  {
    match body
    case None => Catch(Fresh)
    case Some(req) =>
      var s := TryBlock(js, req);
      if s.Thrown? then Catch(s.res) else Outcome(s.res, false)
  }

  /** What a client of the handler as written receives. */
  function Respond(js: Coercion, body: Option<Request>): Response
  {
    Delivered(Handle(js, body).res).value
  }

  /** The `try` block with a `return` after every error send. */
  function TryBlockWithReturns(req: Request): Step
  {
    if !(req.a.Num? && req.b.Num?) then SendJson(Status(Fresh, 400), TypesRejected.payload)
    else if !Includes(SupportedNames, req.operation) then SendJson(Status(Fresh, 400), OperationRejected.payload)
    else match Dispatch(req.operation)
      case None => SendJson(Status(Fresh, 400), Failed(UnsupportedCalculation, NotSupportedByApi))
      case Some(op) =>
        if op == Divide && req.b.n <= 0.0 then SendJson(Status(Fresh, 400), DivisorRejected.payload)
        else SendJson(Fresh, Calculated(Num(Compute(op, req.a.n, req.b.n)), req.operation, req.a, req.b))
  }

  /** The handler with a `return` after every error send: exactly one send, no exception
      leaves the route, and the client receives what the handler as written delivers. */
  function HandleWithReturns(body: Option<Request>): (out: Outcome)
    ensures |out.res.issued| == 1 && !out.escaped
    ensures Delivered(out.res) == Some(Evaluate(body))
    ensures forall js :: Delivered(out.res) == Delivered(Handle(js, body).res)
  {
    match body
    case None => Catch(Fresh)
    case Some(req) =>
      var s := TryBlockWithReturns(req);
      if s.Thrown? then Catch(s.res) else Outcome(s.res, false)
  }
}
