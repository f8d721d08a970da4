/**
 * di/NetworkModule.kt: the interceptor that signs outgoing requests with the stored
 * access token, except on the authentication endpoints.
 */
module NetworkModule {
  import opened Wrappers
  import opened Text
  import opened TokenManager

  datatype Header = Header(name: string, value: string)

  /** The parts of an OkHttp request the interceptor can see or change. */
  datatype Request = Request(verb: string, encodedPath: string, headers: seq<Header>, body: Option<string>)

  const AuthSegment: string := "/auth/"

  function BearerHeader(token: string): (h: Header)
    ensures h.name == "Authorization" && |h.value| == 7 + |token|
    ensures h.value[..7] == "Bearer " && h.value[7..] == token
  {
    Header("Authorization", "Bearer " + token)
  }

  /**
   * The signing rule: a path that contains "/auth/" is left alone; any other request
   * gains one `Authorization: Bearer <token>` header when a token is stored.
   */
  function Authorize(request: Request, token: Option<string>): (r: Request)
    ensures r.verb == request.verb && r.encodedPath == request.encodedPath && r.body == request.body
    ensures Contains(request.encodedPath, AuthSegment) || token.None? ==> r == request
    ensures !Contains(request.encodedPath, AuthSegment) && token.Some? ==>
      r.headers == request.headers + [BearerHeader(token.value)]
  {
    if !Contains(request.encodedPath, AuthSegment) && token.Some? then
      request.(headers := request.headers + [BearerHeader(token.value)])
    else request
  }

  /** A request to an authentication endpoint is never signed, whatever token is stored. */
  lemma AuthEndpointsUnsigned(request: Request, token: Option<string>, i: int)
    requires OccursAt(request.encodedPath, AuthSegment, i)
    ensures Authorize(request, token) == request
  {
    ContainsIffOccurs(request.encodedPath, AuthSegment);
  }

  /** Any other request is signed exactly when a token is stored. */
  lemma OtherEndpointsSigned(request: Request, token: Option<string>)
    requires forall i :: !OccursAt(request.encodedPath, AuthSegment, i)
    ensures token.Some? ==> Authorize(request, token).headers == request.headers + [BearerHeader(token.value)]
    ensures token.None? ==> Authorize(request, token) == request
  {
    ContainsIffOccurs(request.encodedPath, AuthSegment);
  }

  /**
   * The interceptor lambda: it copies the request into a builder, reads the token
   * only for a non-auth path, adds the header if there is one, and forwards the build.
   */
  method Intercept(request: Request, tokenManager: TokenManager) returns (forwarded: Request)
    ensures forwarded == Authorize(request, tokenManager.GetAccessToken())
  {
    var builder := request;
    if !Contains(request.encodedPath, AuthSegment) {
      var token := tokenManager.GetAccessToken();
      if token.Some? {
        builder := builder.(headers := builder.headers + [BearerHeader(token.value)]);
      }
    }
    forwarded := builder;
  }
}
