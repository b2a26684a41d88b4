/** `corsMiddleware(req, res)`: grants cross-origin access to two fixed origins,
    always sets the other CORS headers, and answers an OPTIONS preflight itself. */
module Middleware {
  import opened Common
  import opened Http

  const AllowedOrigins: seq<string> := ["http://localhost:3001", "http://localhost:3002"]

  const AllowOrigin := "Access-Control-Allow-Origin"
  const AllowMethods := "Access-Control-Allow-Methods"
  const AllowHeaders := "Access-Control-Allow-Headers"
  const AllowCredentials := "Access-Control-Allow-Credentials"

  const MethodsValue := "GET, POST, PUT, DELETE, OPTIONS"
  const HeadersValue := "Origin, X-Requested-With, Content-Type, Accept, Authorization"
  const CredentialsValue := "true"

  /** `allowedOrigins.includes(origin)`; an absent origin is never included. */
  predicate OriginAllowed(origin: Option<string>)
  {
    origin.Some? && origin.value in AllowedOrigins
  }

  /** The headers the middleware sets for a request from `origin`. */
  function CorsHeaders(origin: Option<string>): (h: map<string, string>)
    ensures AllowOrigin in h <==> OriginAllowed(origin)
    ensures AllowOrigin in h ==> h[AllowOrigin] == origin.value
    ensures AllowMethods in h && h[AllowMethods] == MethodsValue
    ensures AllowHeaders in h && h[AllowHeaders] == HeadersValue
    ensures AllowCredentials in h && h[AllowCredentials] == CredentialsValue
    ensures h.Keys <= {AllowOrigin, AllowMethods, AllowHeaders, AllowCredentials}
  {
    var granted := if OriginAllowed(origin) then map[AllowOrigin := origin.value] else map[];
    granted[AllowMethods := MethodsValue][AllowHeaders := HeadersValue][AllowCredentials := CredentialsValue]
  }

  /** Returns true exactly for OPTIONS, after ending the response with 204 and no body;
      for every other method the request goes on, whatever its origin. */
  method CorsMiddleware<B>(req: Request<B>, res: Response) returns (handled: bool)
    modifies res
    ensures res.headers == old(res.headers) + CorsHeaders(req.origin)
    ensures handled <==> req.verb == Options
    ensures res.body == old(res.body)
    ensures handled ==> res.statusCode == 204 && res.ended
    ensures !handled ==> res.statusCode == old(res.statusCode) && res.ended == old(res.ended)
  {
    MergedHeaders(res.headers, req.origin);
    if OriginAllowed(req.origin) {
      res.SetHeader(AllowOrigin, req.origin.value);
    }
    res.SetHeader(AllowMethods, MethodsValue);
    res.SetHeader(AllowHeaders, HeadersValue);
    res.SetHeader(AllowCredentials, CredentialsValue);
    if req.verb == Options {
      res.Status(204);
      res.End();
      return true;
    }
    return false;
  }

  /** Setting the headers one after another on `headers` merges `CorsHeaders` into it. */
  lemma MergedHeaders(headers: map<string, string>, origin: Option<string>)
    ensures headers + CorsHeaders(origin) ==
              (if OriginAllowed(origin) then headers[AllowOrigin := origin.value] else headers)
                [AllowMethods := MethodsValue][AllowHeaders := HeadersValue][AllowCredentials := CredentialsValue]
  {
    var granted := if OriginAllowed(origin) then headers[AllowOrigin := origin.value] else headers;
    var merged := granted[AllowMethods := MethodsValue][AllowHeaders := HeadersValue][AllowCredentials := CredentialsValue];
    assert (headers + CorsHeaders(origin)).Keys == merged.Keys;
  }

  /** An origin outside the allow-list gets the same headers as an allowed one, except
      that Allow-Origin is missing. (That such a request is handed on like any other is
      stated by `CorsMiddleware`, whose result depends only on the method.) */
  lemma DisallowedOriginProceeds(origin: Option<string>, other: string)
    requires !OriginAllowed(origin) && other in AllowedOrigins
    ensures AllowOrigin !in CorsHeaders(origin)
    ensures CorsHeaders(Some(other)) == CorsHeaders(origin)[AllowOrigin := other]
  {
    var h, g := CorsHeaders(origin), CorsHeaders(Some(other));
    assert g.Keys == h.Keys + {AllowOrigin};
  }
}
