/** The interceptor that attaches Cloudflare Access credentials to every
    outbound API request. Its two credential fields are plain mutable state; the
    decision it takes on each request is the pure function `Forward`. */
module Cloudflare {
  import opened Http

  /** Names of the two headers the interceptor sets. Only the fact that they
      differ is used by the proofs below. */
  const CfAccessClientId: string := "CF-Access-Client-Id"
  const CfAccessClientSecret: string := "CF-Access-Client-Secret"

  /** The guard of `intercept` as it is written: the secret is tested for
      non-emptiness twice and the client ID is never tested. */
  predicate AttachesCredentials(clientId: string, clientSecret: string) {
    |clientSecret| > 0 && |clientSecret| > 0
  }

  /** The request `intercept` hands to `chain.proceed`, given the two credential
      fields and the incoming request. The header values are the fields as the
      header builder stores them, that is trimmed of surrounding blanks. */
  function Forward(clientId: string, clientSecret: string, request: Request): (r: Request)
    ensures r.url == request.url && r.verb == request.verb && r.body == request.body
    ensures clientSecret == "" ==> r == request
    ensures clientSecret != "" ==>
              Values(r.headers, CfAccessClientId) == [Trim(clientId)] &&
              Values(r.headers, CfAccessClientSecret) == [Trim(clientSecret)]
    ensures forall name :: name != CfAccessClientId && name != CfAccessClientSecret ==>
              Values(r.headers, name) == Values(request.headers, name)
  {
    if AttachesCredentials(clientId, clientSecret) then
      request.WithHeader(CfAccessClientId, clientId).WithHeader(CfAccessClientSecret, clientSecret)
    else
      request
  }

  /** Whether headers are attached is decided by the secret alone: two
      interceptors that hold the same secret either both rewrite the request or
      both pass it through, whatever their client IDs. */
  lemma GuardIgnoresClientId(id1: string, id2: string, clientSecret: string)
    ensures AttachesCredentials(id1, clientSecret) <==> AttachesCredentials(id2, clientSecret)
    ensures AttachesCredentials(id1, clientSecret) <==> clientSecret != ""
  {
  }

  /** A non-empty secret with an empty client ID still sends the ID header,
      carrying the empty string. */
  lemma EmptyIdStillSent(clientSecret: string, request: Request)
    requires clientSecret != ""
    ensures Values(Forward("", clientSecret, request).headers, CfAccessClientId) == [""]
    ensures Values(Forward("", clientSecret, request).headers, CfAccessClientSecret) == [Trim(clientSecret)]
  {
    TrimKeepsUnblankedEnds("");
  }

  /** Credentials without blanks at their ends go out verbatim. */
  lemma ForwardVerbatim(clientId: string, clientSecret: string, request: Request)
    requires clientSecret != "" && !IsBlank(clientSecret[0]) && !IsBlank(clientSecret[|clientSecret| - 1])
    requires clientId == "" || (!IsBlank(clientId[0]) && !IsBlank(clientId[|clientId| - 1]))
    ensures Values(Forward(clientId, clientSecret, request).headers, CfAccessClientId) == [clientId]
    ensures Values(Forward(clientId, clientSecret, request).headers, CfAccessClientSecret) == [clientSecret]
  {
    TrimKeepsUnblankedEnds(clientId);
    TrimKeepsUnblankedEnds(clientSecret);
  }

  /** A secret made only of blanks passes the guard, so both headers are
      attached, but the secret header goes out empty. */
  lemma BlankSecretSentEmpty(clientId: string, clientSecret: string, request: Request)
    requires clientSecret != ""
    requires forall k :: 0 <= k < |clientSecret| ==> IsBlank(clientSecret[k])
    ensures Values(Forward(clientId, clientSecret, request).headers, CfAccessClientSecret) == [""]
  {
    TrimAllBlank(clientSecret);
  }

  /** The headers are set, not appended: intercepting an already intercepted
      request changes nothing, down to the order of the header list. */
  lemma ForwardIdempotent(clientId: string, clientSecret: string, request: Request)
    ensures Forward(clientId, clientSecret, Forward(clientId, clientSecret, request))
            == Forward(clientId, clientSecret, request)
  {
    if clientSecret != "" {
      var once := Forward(clientId, clientSecret, request);
      var id, secret := Trim(clientId), Trim(clientSecret);
      PutTwice(request.headers, CfAccessClientId, id, CfAccessClientSecret, secret);
      PutTwice(once.headers, CfAccessClientId, id, CfAccessClientSecret, secret);
      RemoveTwiceAfterPutTwice(request.headers, CfAccessClientId, id, CfAccessClientSecret, secret);
    }
  }

  class CloudflareInterceptor {
    var cloudflareClientId: string
    var cloudflareClientSecret: string

    /** Both credentials start out empty. */
    constructor ()
      ensures cloudflareClientId == "" && cloudflareClientSecret == ""
    {
      cloudflareClientId := "";
      cloudflareClientSecret := "";
    }

    /** Assignment to `cloudflareClientId`. */
    method SetCloudflareClientId(value: string)
      modifies this
      ensures cloudflareClientId == value
      ensures cloudflareClientSecret == old(cloudflareClientSecret)
    {
      cloudflareClientId := value;
    }

    /** Assignment to `cloudflareClientSecret`. */
    method SetCloudflareClientSecret(value: string)
      modifies this
      ensures cloudflareClientSecret == value
      ensures cloudflareClientId == old(cloudflareClientId)
    {
      cloudflareClientSecret := value;
    }

    /** Forwards exactly one request, the one `Forward` builds from the current
        credentials, and returns the response to it; the credentials are left
        as they were. */
    method Intercept<Response>(chain: Chain<Response>) returns (response: Response)
      modifies chain
      ensures chain.proceeded == old(chain.proceeded) + [Forward(cloudflareClientId, cloudflareClientSecret, chain.request)]
      ensures response == chain.server(Forward(cloudflareClientId, cloudflareClientSecret, chain.request))
      ensures unchanged(this)
    {
      response := chain.Proceed(Forward(cloudflareClientId, cloudflareClientSecret, chain.request));
    }
  }

  /** A freshly built interceptor forwards the incoming request untouched. */
  method FreshInterceptorPassesThrough<Response>(request: Request, server: Request -> Response)
    returns (forwarded: seq<Request>, response: Response)
    ensures forwarded == [request]
    ensures response == server(request)
  {
    var interceptor := new CloudflareInterceptor();
    var chain := new Chain(request, server);
    response := interceptor.Intercept(chain);
    forwarded := chain.proceeded;
  }

  /** Credentials assigned through the setters reach the forwarded request,
      trimmed, whichever is assigned first, and every other header is kept. */
  method ConfiguredInterceptorAttaches<Response>(
    clientId: string, clientSecret: string, request: Request, server: Request -> Response)
    returns (forwarded: Request, response: Response, forwardedIdFirst: Request)
    requires clientSecret != ""
    ensures Values(forwarded.headers, CfAccessClientId) == [Trim(clientId)]
    ensures Values(forwarded.headers, CfAccessClientSecret) == [Trim(clientSecret)]
    ensures forall name :: name != CfAccessClientId && name != CfAccessClientSecret ==>
              Values(forwarded.headers, name) == Values(request.headers, name)
    ensures response == server(forwarded)
    ensures forwardedIdFirst == forwarded
  {
    var secretFirst := new CloudflareInterceptor();
    secretFirst.SetCloudflareClientSecret(clientSecret);
    secretFirst.SetCloudflareClientId(clientId);
    var chain := new Chain(request, server);
    response := secretFirst.Intercept(chain);
    forwarded := chain.proceeded[0];

    var idFirst := new CloudflareInterceptor();
    idFirst.SetCloudflareClientId(clientId);
    idFirst.SetCloudflareClientSecret(clientSecret);
    var otherChain := new Chain(request, server);
    var _ := idFirst.Intercept(otherChain);
    forwardedIdFirst := otherChain.proceeded[0];
  }

  /** Only a secret, no client ID: the request still gains an ID header whose
      value is the empty string. */
  method SecretWithoutIdAttaches<Response>(clientSecret: string, request: Request, server: Request -> Response)
    returns (forwarded: Request)
    requires clientSecret != ""
    ensures Values(forwarded.headers, CfAccessClientId) == [""]
    ensures Values(forwarded.headers, CfAccessClientSecret) == [Trim(clientSecret)]
  {
    var interceptor := new CloudflareInterceptor();
    interceptor.SetCloudflareClientSecret(clientSecret);
    var chain := new Chain(request, server);
    var _ := interceptor.Intercept(chain);
    forwarded := chain.proceeded[0];
    EmptyIdStillSent(clientSecret, request);
  }

  /** Only a client ID, no secret: the request passes through unchanged. */
  method IdWithoutSecretPassesThrough<Response>(clientId: string, request: Request, server: Request -> Response)
    returns (forwarded: Request)
    ensures forwarded == request
  {
    var interceptor := new CloudflareInterceptor();
    interceptor.SetCloudflareClientId(clientId);
    var chain := new Chain(request, server);
    var _ := interceptor.Intercept(chain);
    forwarded := chain.proceeded[0];
  }
}
