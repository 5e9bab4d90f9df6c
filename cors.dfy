/** The cross-origin resource sharing middleware: an allow-listed origin is
    echoed back, five fixed headers are always set, and a preflight OPTIONS
    request is answered 204 without reaching the next handler. */
module Cors {

  /** The origins allowed to make cross-origin requests. */
  const AllowedOrigins: set<string> := {"http://localhost:3000", "http://localhost:8080"}

  const AllowOrigin: string := "Access-Control-Allow-Origin"

  /** The headers set on every response, whatever the origin and method. */
  const FixedHeaders: map<string, string> := map[
    "Access-Control-Allow-Methods" := "GET, POST, PUT, DELETE, OPTIONS",
    "Access-Control-Allow-Headers" := "Authorization, Content-Type, X-Request-ID",
    "Access-Control-Allow-Credentials" := "true",
    "Access-Control-Max-Age" := "86400",
    "Access-Control-Expose-Headers" := "X-Request-ID"]

  const NoContent204: int := 204

  /** What the middleware does: answer a preflight itself with status 204
      and no body, or call the next handler exactly once; either way with
      the response headers it has set. */
  datatype Reply = Preflight(headers: map<string, string>, status: int) | CallNext(headers: map<string, string>)

  /** The headers written for a request from `origin` ("" when the request
      carries no Origin header). */
  function CorsHeaders(origin: string): (h: map<string, string>)
    ensures AllowOrigin in h <==> origin in AllowedOrigins
    ensures AllowOrigin in h ==> h[AllowOrigin] == origin
    ensures forall k :: k in FixedHeaders ==> k in h && h[k] == FixedHeaders[k]
    ensures h.Keys <= FixedHeaders.Keys + {AllowOrigin}
  {
    var echoed := if origin in AllowedOrigins then map[AllowOrigin := origin] else map[];
    echoed + FixedHeaders
  }

  /** The middleware on a request's Origin header and method. */
  function Handle(origin: string, verb: string): (r: Reply)
    ensures r.headers == CorsHeaders(origin)
    ensures r.Preflight? <==> verb == "OPTIONS"
    ensures r.Preflight? ==> r.status == NoContent204
  {
    if verb == "OPTIONS" then Preflight(CorsHeaders(origin), NoContent204) else CallNext(CorsHeaders(origin))
  }

  /** A request without an Origin header is never given an allowed origin. */
  lemma EmptyOriginNotEchoed(verb: string)
    ensures AllowOrigin !in Handle("", verb).headers
  {
  }

  /** The headers do not depend on the method, and a disallowed origin is
      still passed on to the next handler on every non-OPTIONS request. */
  lemma HeadersIgnoreMethod(origin: string, m1: string, m2: string)
    ensures Handle(origin, m1).headers == Handle(origin, m2).headers
    ensures m1 != "OPTIONS" ==> Handle(origin, m1) == CallNext(CorsHeaders(origin))
  {
  }

  /** Two origins get the same headers unless one of them is allow-listed. */
  lemma DisallowedOriginsLookAlike(o1: string, o2: string)
    requires o1 !in AllowedOrigins && o2 !in AllowedOrigins
    ensures CorsHeaders(o1) == CorsHeaders(o2) == FixedHeaders
  {
  }
}
