/** The part of Express's response object the handler touches. */
module Express {
  import opened Json
  import opened Api

  /** `statusCode` is what `res.status` last set; `issued` lists every body handed to
      `res.json`, in call order, including the calls that were refused. */
  datatype Res = Res(statusCode: int, issued: seq<Response>)

  /** A response object before the handler runs: status 200, nothing sent. */
  const Fresh := Res(200, [])

  predicate HeadersSent(res: Res)
  {
    |res.issued| > 0
  }

  /** What the client receives: the first send. Once it has gone out, the headers are on
      the wire and no later call can replace them. */
  function Delivered(res: Res): Option<Response>
  {
    if HeadersSent(res) then Some(res.issued[0]) else None
  }

  /** Outcome of a statement: it completed, or it threw out of the enclosing block. */
  datatype Step = Normal(res: Res) | Thrown(res: Res)

  /** `res.status(code)` only records the code; it never throws and never sends. */
  function Status(res: Res, code: int): (res': Res)
    ensures res'.statusCode == code
    ensures res'.issued == res.issued
    ensures Delivered(res') == Delivered(res)
  {
    res.(statusCode := code)
  }

  /** `res.json(payload)`. The first call sends with the current status code. A later
      call throws `ERR_HTTP_HEADERS_SENT` (raised when `res.send` sets a header) and
      leaves what the client received unchanged. */
  function SendJson(res: Res, payload: Payload): (s: Step)
    ensures s.Thrown? <==> HeadersSent(res)
    ensures Delivered(s.res) == if HeadersSent(res) then Delivered(res) else Some(Response(res.statusCode, payload))
    ensures |s.res.issued| == |res.issued| + 1 && s.res.issued[..|res.issued|] == res.issued
    ensures s.res.issued[|res.issued|] == Response(res.statusCode, payload)
  {
    var res' := res.(issued := res.issued + [Response(res.statusCode, payload)]);
    if HeadersSent(res) then Thrown(res') else Normal(res')
  }
}
