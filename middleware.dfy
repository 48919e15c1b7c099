/** The API's middleware (core/internal/adapters/inbound/http/middleware.go):
    handlers as layers of middleware around an endpoint, `Chain`, and what a
    layered handler does with one request. */
module Middleware {

  datatype Layer = Logging | Cors

  /** A handler: an endpoint, or a middleware layer around another handler. */
  datatype Handler = Endpoint(name: string) | Wrapped(layer: Layer, next: Handler)

  datatype Request = Request(Method: string, Path: string)

  /** What serving one request produced: the headers set on the way, the
      status written, and the requests the endpoint received. */
  datatype Served = Served(Headers: map<string, string>, Status: int, reached: seq<Request>)

  const CorsHeaders: map<string, string> := map[
    "Access-Control-Allow-Origin" := "*",
    "Access-Control-Allow-Methods" := "GET, POST, PUT, DELETE, OPTIONS",
    "Access-Control-Allow-Headers" := "Content-Type, Authorization"]

  /** Applying middlewares "in the order specified": the first is outermost. */
  function ChainSpec(h: Handler, ms: seq<Layer>): Handler {
    if |ms| == 0 then h else Wrapped(ms[0], ChainSpec(h, ms[1..]))
  }

  /** The layers of a handler, outermost first, and the endpoint inside. */
  function Layers(h: Handler): seq<Layer> {
    match h
    case Endpoint(_) => []
    case Wrapped(l, next) => [l] + Layers(next)
  }

  function Base(h: Handler): Handler {
    match h
    case Endpoint(_) => h
    case Wrapped(_, next) => Base(next)
  }

  /** `Chain`: wraps `h` from the last middleware back to the first. */
  method Chain(h: Handler, ms: seq<Layer>) returns (r: Handler)
    ensures r == ChainSpec(h, ms)
  {
    r := h;
    var i := |ms|;
    while i > 0
      invariant 0 <= i <= |ms|
      invariant r == ChainSpec(h, ms[i..])
    {
      i := i - 1;
      assert ms[i..][1..] == ms[i + 1..];
      r := Wrapped(ms[i], r);
    }
  }

  /** Chaining adds each middleware exactly once, in the listed order, on the
      outside of the handler, and leaves the endpoint as it was; no
      middlewares leaves the handler unchanged. */
  lemma {:induction false} ChainLayers(h: Handler, ms: seq<Layer>)
    ensures Layers(ChainSpec(h, ms)) == ms + Layers(h)
    ensures Base(ChainSpec(h, ms)) == Base(h)
    ensures |ms| == 0 ==> ChainSpec(h, ms) == h
  {
    if |ms| > 0 {
      ChainLayers(h, ms[1..]);
      assert [ms[0]] + (ms[1..] + Layers(h)) == ms + Layers(h);
    }
  }

  /** Serving a request. Logging passes it on unchanged. CORS sets its three
      headers, then answers OPTIONS itself with 200 and otherwise passes the
      request on (headers the inner handler sets take precedence). The
      endpoint's status is `status(request)`. */
  function Serve(h: Handler, req: Request, status: Request -> int): Served {
    match h
    case Endpoint(_) => Served(map[], status(req), [req])
    case Wrapped(Logging, next) => Serve(next, req, status)
    case Wrapped(Cors, next) =>
      if req.Method == "OPTIONS" then Served(CorsHeaders, 200, [])
      else
        var inner := Serve(next, req, status);
        inner.(Headers := CorsHeaders + inner.Headers)
  }

  /** The two middlewares one by one: CORS answers OPTIONS with 200 without
      calling on; for other methods it sets its headers and calls the next
      handler once; logging calls the next handler once with the request
      unchanged. */
  lemma MiddlewareBehaviour(next: Handler, req: Request, status: Request -> int)
    ensures var s := Serve(Wrapped(Cors, next), req, status);
            && (req.Method == "OPTIONS" ==> s == Served(CorsHeaders, 200, []))
            && (req.Method != "OPTIONS" ==>
                  && s.reached == Serve(next, req, status).reached
                  && s.Status == Serve(next, req, status).Status
                  && forall k :: k in CorsHeaders && k !in Serve(next, req, status).Headers ==>
                                   k in s.Headers && s.Headers[k] == CorsHeaders[k])
    ensures Serve(Wrapped(Logging, next), req, status) == Serve(next, req, status)
  {
  }

  /** Through any chain around an endpoint, the endpoint receives the request
      exactly once and unchanged, unless a CORS layer is present and the
      request is OPTIONS, in which case it is not reached and the reply is 200
      carrying the CORS headers. */
  lemma {:induction false} ServeThroughChain(name: string, ms: seq<Layer>, req: Request, status: Request -> int)
    ensures var s := Serve(ChainSpec(Endpoint(name), ms), req, status);
            && (Cors in ms && req.Method == "OPTIONS" ==> s.reached == [] && s.Status == 200 && s.Headers == CorsHeaders)
            && (!(Cors in ms && req.Method == "OPTIONS") ==> s.reached == [req] && s.Status == status(req))
  {
    if |ms| > 0 {
      ServeThroughChain(name, ms[1..], req, status);
      assert Cors in ms <==> ms[0] == Cors || Cors in ms[1..];
    }
  }
}
