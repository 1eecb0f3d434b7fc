# Calculator API: the `POST /calculate` handler

The service exposes `add`, `subtract`, `multiply` and `divide` over JSON. Its only decision
logic is the `/calculate` route handler. It destructures `operation`, `a` and `b` from the
decoded body. It checks that both operands are numbers, then that the operation is one of the
four names, then (for `divide`) that the divisor is positive. It switches on the operation and
sends `{result, operation, a, b}`. Errors are `{error, message}` bodies with status 400, and a
body that cannot be destructured ends in the `catch` block with status 500.

None of the error sends is followed by `return`, so the handler keeps running and calls
`res.json` again. Express refuses every send after the first: the headers are already out, and
the call throws `ERR_HTTP_HEADERS_SENT`. What the client receives is therefore the first send.

The model has five modules:

- `Json` holds the decoded values. `Num` is a finite number, as `typeof === 'number'` accepts, `Str`
  is a string, and `Other` is everything else, including a missing property.
- `Api` holds the request, success and error shapes, the error codes and the messages.
- `Express` models the response object. It keeps the current status code and every body
  handed to `res.json`, in call order. The client receives the first of them (`Delivered`).
- `Calculate` holds three definitions:
  - `Handle` is the handler as written, statement by statement, including the sends that
    throw and the `catch` block that runs after them.
  - `Evaluate` is the short-circuit reading: the first failing check decides the response.
  - `HandleWithReturns` is the same handler with a `return` after every error send.

The central result is on `Handle`: for every request, what the client receives from the code
as written equals `Evaluate`. On the error paths the handler goes on to do arithmetic with
operands that are not numbers, and it compares such a `b` with `<= 0`. JavaScript's coercions
there are a parameter (`Coercion`), and every result holds for every choice of it.
`Handle` is built from one helper per part of the source. `CheckOperands` is the type check
(src/app.ts:48-53) and `CheckOperation` the membership check (src/app.ts:56-61). `Switch` is the
`switch` (src/app.ts:64-90), using `AtMostZero` for the guard at line 76 and `Arith` for the
operators at lines 67, 70, 73 and 82. `TryBlock` is the whole `try` block (src/app.ts:43-99) and
`Catch` the `catch` block (src/app.ts:101-107).

The fifth module, `Properties`, states the endpoint's observable behaviour in terms of `Respond`, the response a
client receives from `Handle`.

## Model

| member | source | states |
|---|---|---|
| Calculate.Includes | src/app.ts:56 | `includes` on the list of names holds exactly when the value is a string equal to some element |
| Calculate.Dispatch | src/app.ts:65-90 | the switch selects an operation only for the string that names it, and selects it for every such string; anything else reaches `default` |
| Calculate.Evaluate | src/app.ts:42-108 | 500 exactly when the body is absent; 200 exactly when the request is valid, and then the body is a result; otherwise 400; never `UNSUPPORTED_CALCULATION` |
| Api.CodesDistinct | src/app.ts:49-106 | the four `error` strings the handler writes are pairwise different |
| Express.Status | src/app.ts:49 | `res.status(code)` sets the status code that the next send uses, and neither sends nor changes what the client has received |
| Express.SendJson | src/app.ts:99 | a send throws exactly when headers are already sent; the first send reaches the client with the current status, and a later one changes nothing the client sees |
| Calculate.SupportedNamesAreNames | src/app.ts:56 | the array searched by the membership check holds exactly the four operation names |
| Calculate.CheckOperands | src/app.ts:48-53 | numeric operands pass untouched; otherwise a response is out afterwards, and it is the type error unless an earlier one was already out |
| Calculate.CheckOperation | src/app.ts:56-61 | a value naming one of the four operations passes untouched; any other value leaves a response out, the unsupported-type error unless an earlier one was already out |
| Calculate.Switch | src/app.ts:64-90 | a response already out stays delivered; after both checks pass with nothing sent, `divide` with `b <= 0` delivers `ILLEGAL_CALCULATION` and every other case leaves unsent with the operation's arithmetic in `result` |
| Calculate.TryBlock | src/app.ts:43-99 | the first send of the `try` block is `Evaluate`'s response; the block throws exactly when that response is a 400, and otherwise sends once |
| Calculate.Catch | src/app.ts:101-107 | the `catch` block's send escapes the route exactly when a response was already out; it then leaves that response delivered, and otherwise delivers the 500 `CALCULATION_ERROR` |
| Calculate.Handle | src/app.ts:42-108 | for every coercion, the first send of the handler as written is `Evaluate`'s response; an exception escapes the route exactly when that response is a 400; exactly one send happens otherwise |
| Calculate.HandleWithReturns | src/app.ts:42-108 | with a `return` after each error send, exactly one send happens, nothing escapes, and the client receives the same response as from the code as written |
| Properties.InvalidOperandsRejected | src/app.ts:48-53 | a non-number `a` or `b` yields 400 `VALIDATION_ERROR` "Invalid types provided for operands", whatever the operation |
| Properties.UnsupportedOperationRejected | src/app.ts:56-61 | numeric operands with an operation that names none of the four yield 400 `VALIDATION_ERROR` "Unsupported calculation type provided" |
| Properties.DivideGuard | src/app.ts:75-82 | `divide` with any `b <= 0` yields 400 `ILLEGAL_CALCULATION` "Cannot divide by zero"; any `b > 0` yields 200 with `a / b` |
| Properties.ResultByOperation | src/app.ts:65-83 | a valid request yields 200 with `a + b`, `a - b`, `a * b` or `a / b` according to the operation |
| Properties.SuccessEchoesRequest | src/app.ts:92-99 | a response is a result body exactly when its status is 200, and then it echoes `operation`, `a` and `b` unchanged beside a numeric `result` |
| Properties.ValidationOrder | src/app.ts:48-99 | the type check wins over the membership check, which wins over the divide guard; a request that fails any check never sees a 200 |
| Properties.FirstSendIsDelivered | src/app.ts:48-107 | every request gets a response, and it is the first send; if any send the handler issued is an error, the client receives an error |
| Properties.MembershipMatchesSwitch | src/app.ts:56-90 | the membership list and the switch cases accept exactly the same values |
| Properties.UnsupportedCalculationNeverDelivered | src/app.ts:84-88 | the `default` branch's error is never what a client receives |
| Properties.AbsentBodyFails | src/app.ts:44 | a body that cannot be destructured yields 500 `CALCULATION_ERROR` "An error occurred with the calculation endpoint", and nothing escapes |
| Properties.MissingReturnsIssueExtraSends | src/app.ts:56-107 | for `{operation: "mod", a: 1, b: 1}` the handler issues three sends (membership error, `default` error, `catch` error), and the last throws out of the route |
| Properties.Scenarios | src/app.ts:42-108 | add 2 and 3 gives 200 with result 5 and the request echoed; divide 10 by 0 or by -2 gives `ILLEGAL_CALCULATION`; `mod` gives the unsupported-type `VALIDATION_ERROR` |

## Left out

- Express bootstrap, `express.json()` registration, the port and `app.listen` (src/app.ts:21-24, 118-122): process start-up with no decision logic.
- The `/`, `/health` and catch-all 404 routes and the error middleware (src/app.ts:26-40, 110-116): fixed replies. The health timestamp is a clock read.
- The request body is an `Option`: `None` is a request without a JSON body, for which Express 5 leaves `req.body` undefined, so the destructuring at src/app.ts:44 throws.
- Bodies that `express.json()` itself rejects (malformed JSON) never reach the handler and are not modelled.
- src/app.js and dist/app.js: stale compiled copies without the `/calculate` route.
- IEEE-754 doubles: operands and results are `real`. NaN, infinities, `-0` and rounding are not modelled. A JSON literal too large for a double would parse to an infinity, and that case is not represented. Dividing a number by zero yields `Other`; that value is only ever built on a path where a 400 has already been sent.
- JavaScript's coercion of non-number operands in `b <= 0` and in `+ - * /`, and any `TypeError` it raises, is a parameter (`Coercion`) rather than a definition. Every property holds for every choice of it.
- `Json.Value` folds `undefined`, `null`, booleans, arrays and objects into one `Other`. The checks and the delivered response treat them alike: they fail `typeof === 'number'` and match no operation name. JavaScript's `b <= 0` does tell some of them apart (`null <= 0` holds, `undefined <= 0` does not), which can change the later sends, but not the delivered response; `Coercion` covers both.
- Express.SendJson: a refused send is recorded in `issued`, so that the model can count what the handler attempted. Nothing of it reaches the client.
- After an exception escapes the route, Express's final handler closes the connection. That happens after the first response has been written, and it is not modelled.
- `console.error` logging in the `catch` block (src/app.ts:102): output only.
- A calculation history or ledger: the handler keeps none, and no such code exists in src/app.ts.
- Concurrency: the handler touches no shared state.

## Findings

| source | as written | input that shows it | evidently intended | confidence | as-written member | corrected member |
|---|---|---|---|---|---|---|
| src/app.ts:48-99 | the error sends at lines 49, 57, 77 and 85 are not followed by `return`, so execution goes on to further `res.json` calls. These throw `ERR_HTTP_HEADERS_SENT`, are caught, and the `catch` block's own send throws out of the route | `{"operation": "mod", "a": 1, "b": 1}`: three sends, the third escaping the handler | return after the first error send: exactly one send per request and no exception. The response the client gets is the same | high, not executed | Properties.MissingReturnsIssueExtraSends | Calculate.HandleWithReturns |
