/**
  `Fetch.Fetch` (fetch.go:51-63): build the script, have the page evaluate it,
  decode the value it resolves to. The page's evaluation and the decoding into
  `Response` are not part of this model; they enter as functions.
 */
module FetchCall {
  import opened Results
  import opened FetchRequest
  import opened RequestJson
  import opened FetchScript

  /** The `Response` struct of fetch.go; `kind` is the field Go calls `Type`. */
  datatype Response = Response(
    kind: string,
    url: string,
    status: int,
    headers: map<string, seq<string>>,
    body: string)

  /** What one call did: the response pointer and error it returned, and the script it handed to the page, if any. */
  datatype Call<E> = Call(resp: Option<Response>, err: Option<E>, evaluated: Option<string>)

  /**
    The steps of `Fetch` after `makeFetchJS` has returned `built`:
    `evaluate` is the page's evaluation of a script, `unmarshal` is decoding
    the resolved value into a fresh `Response`, giving the (possibly partly
    filled) response and the decode error.
   */
  function Route<V, E>(
    built: (string, Option<E>),
    evaluate: string -> Result<V, E>,
    unmarshal: V -> (Response, Option<E>)): (c: Call<E>)
    ensures c.resp.Some? <==> c.err.None?
    ensures built.1.Some? ==> c.err == built.1 && c.evaluated.None?
    ensures built.1.None? ==> c.evaluated == Some(built.0)
    ensures built.1.None? && evaluate(built.0).Err? ==> c.err == Some(evaluate(built.0).error)
    ensures built.1.None? && evaluate(built.0).Ok? ==>
      c == Call(Some(unmarshal(evaluate(built.0).value).0), None, Some(built.0))
  {
    match built.1
    case Some(e) => Call(None, Some(e), None)
    case None =>
      match evaluate(built.0)
      case Err(evalErr) => Call(None, Some(evalErr), Some(built.0))
      case Ok(v) => Call(Some(unmarshal(v).0), None, Some(built.0))
  }

  /** `api.Fetch(url, req)`. */
  function Fetch<V, E>(
    url: string,
    req: Request,
    enc: Encoder,
    evaluate: string -> Result<V, E>,
    unmarshal: V -> (Response, Option<E>)): (c: Call<E>)
    ensures c.evaluated == Some(Script(url, Marshall<E>(req, enc).value))
    ensures c.err.Some? <==> evaluate(c.evaluated.value).Err?
    ensures c.err.Some? ==> c.resp.None? && c.err == Some(evaluate(c.evaluated.value).error)
    ensures evaluate(c.evaluated.value).Ok? ==>
      c.resp == Some(unmarshal(evaluate(c.evaluated.value).value).0)
  {
    Route(MakeFetchJS<E>(url, req, enc), evaluate, unmarshal)
  }

  /**
    `Fetch` as evidently intended: a decode error is returned instead of
    dropped. It returns no error exactly when building, evaluating and
    decoding all succeed, and then returns the decoded response.
   */
  function RouteChecked<V, E>(
    built: (string, Option<E>),
    evaluate: string -> Result<V, E>,
    unmarshal: V -> (Response, Option<E>)): (c: Call<E>)
    ensures c.resp.Some? <==> c.err.None?
    ensures c.evaluated == if built.1.None? then Some(built.0) else None
    ensures c.err.None? <==>
      built.1.None? && evaluate(built.0).Ok? && unmarshal(evaluate(built.0).value).1.None?
    ensures c.err.None? ==> c.resp == Some(unmarshal(evaluate(built.0).value).0)
    ensures built.1.Some? ==> c.err == built.1
    ensures built.1.None? && evaluate(built.0).Err? ==> c.err == Some(evaluate(built.0).error)
    ensures built.1.None? && evaluate(built.0).Ok? ==> c.err == unmarshal(evaluate(built.0).value).1
  {
    match built.1
    case Some(e) => Call(None, Some(e), None)
    case None =>
      match evaluate(built.0)
      case Err(evalErr) => Call(None, Some(evalErr), Some(built.0))
      case Ok(v) =>
        match unmarshal(v).1
        case Some(decodeErr) => Call(None, Some(decodeErr), Some(built.0))
        case None => Call(Some(unmarshal(v).0), None, Some(built.0))
  }

  /**
    The corrected `Fetch` over a URL and request: exactly one of response and
    error; an evaluation error or a decode error is the call's error; with
    neither, the decoded response comes back.
   */
  function FetchChecked<V, E>(
    url: string,
    req: Request,
    enc: Encoder,
    evaluate: string -> Result<V, E>,
    unmarshal: V -> (Response, Option<E>)): (c: Call<E>)
    ensures var script := Script(url, Marshall<E>(req, enc).value);
            && c.evaluated == Some(script)
            && (c.resp.Some? <==> c.err.None?)
            && (evaluate(script).Err? ==> c.err == Some(evaluate(script).error))
            && (evaluate(script).Ok? ==> c.err == unmarshal(evaluate(script).value).1)
            && (c.err.None? ==> c.resp == Some(unmarshal(evaluate(script).value).0))
  {
    var built := MakeFetchJS<E>(url, req, enc);
    RouteChecked(built, evaluate, unmarshal)
  }

  /** As written, a failed decode still yields a response and no error: the corrected routing reports it. */
  lemma DecodeErrorDropped()
    ensures var partial := Response("", "", 0, map[], "");
            var c := Route<int, string>(("s", None), _ => Ok(0), _ => (partial, Some("status is not a number")));
            var fixed := RouteChecked<int, string>(("s", None), _ => Ok(0), _ => (partial, Some("status is not a number")));
            && c.resp == Some(partial) && c.err.None?
            && fixed.resp.None? && fixed.err == Some("status is not a number")
  {
  }
}
