/** The three route handlers of the relay, each as a function from the
    request and its environment (the identity provider, the resource server,
    the SOAP client) to an exchange: the reply sent and the outbound calls
    made, in order. The network calls are parameters, so every answer the
    environment can give is covered. */
module Handlers {
  import opened Values
  import opened MethodNames
  import opened Templates
  import opened Describe

  datatype FormField = FormField(name: string, value: Field)

  /** The client-credentials POST of `getOauth2`. */
  datatype TokenRequest = TokenRequest(url: string, form: seq<FormField>)

  /** What the token POST settles to: rejected (transport or non-2xx), or a
      response whose `data.access_token` may be missing. */
  datatype TokenResult = TokenFailed | TokenIssued(accessToken: Field)

  /** The authenticated GET of `getRequestDynamic`. */
  datatype ResourceRequest = ResourceRequest(url: Field, authorization: string)

  datatype FetchResult = FetchFailed | Fetched(data: Json)

  /** `soap.createClientAsync(url, {wsdl_headers: {Authorization}})`. */
  datatype ClientRequest = ClientRequest(wsdlUrl: string, wsdlAuthorization: string)

  datatype Call =
    | PostToken(tokenRequest: TokenRequest)
    | GetResource(resourceRequest: ResourceRequest)
    | CreateClient(clientRequest: ClientRequest)

  /** The replies a handler can send. */
  datatype Response =
    | NoResponse                              // nothing is ever sent; the request dangles
    | Unauthorized                            // {status: 401, reason: 'access token not exist'}
    | Ko                                      // {status: "ko"}
    | ServerError(fault: Fault)               // {status: 500, error}
    | Relayed(data: Json)                     // the upstream body, as JSON
    | Xml(document: Json)                     // the upstream body, as text/xml
    | Mapping(parameters: map<string, Json>)  // operation name to input shape

  datatype Exchange = Exchange(response: Response, calls: seq<Call>)

  const FormNames: seq<string> := ["client_id", "client_secret", "grant_type", "scope", "tenant"]

  /** The token request built from a posted configuration. */
  function TokenRequestFor(c: Config): (r: TokenRequest)
    ensures TenantOf(r.url) == Some(Interpolate(c.tenant))
    ensures |r.form| == |FormNames| && forall i :: 0 <= i < |r.form| ==> r.form[i].name == FormNames[i]
    ensures && r.form[0].value == c.clientId && r.form[1].value == c.clientSecret
            && r.form[2].value == c.grantType && r.form[3].value == c.scope
            && r.form[4].value == c.tenant
  {
    TokenUrlNamesTenant(c.tenant);
    TokenRequest(TokenUrl(c.tenant), [
      FormField("client_id", c.clientId),
      FormField("client_secret", c.clientSecret),
      FormField("grant_type", c.grantType),
      FormField("scope", c.scope),
      FormField("tenant", c.tenant)])
  }

  /** The Authorization header a dependent call carries. */
  function CallAuthorization(call: Call): Option<string> {
    match call
    case PostToken(_) => None
    case GetResource(r) => Some(r.authorization)
    case CreateClient(r) => Some(r.wsdlAuthorization)
  }

  /** The control flow every token-based route follows: it posts the token
      request first (nothing is reused from an earlier request), then makes
      at most one dependent call, and that only when a token came back and is
      truthy, authenticated with exactly that token. */
  predicate TokenFlow(ex: Exchange, tr: TokenRequest, result: TokenResult) {
    && 1 <= |ex.calls| <= 2
    && ex.calls[0] == PostToken(tr)
    && (|ex.calls| == 2 ==>
          && result.TokenIssued? && Truthy(result.accessToken)
          && CallAuthorization(ex.calls[1]) == Some(Bearer(result.accessToken.value)))
  }

  // ---------------------------------------------------------------------
  // POST /odatav4/company
  // ---------------------------------------------------------------------

  function Company(c: Config, issuer: TokenRequest -> TokenResult, fetch: ResourceRequest -> FetchResult): (ex: Exchange)
    ensures TokenFlow(ex, TokenRequestFor(c), issuer(TokenRequestFor(c)))
    ensures ex.response.Ko? || ex.response.Unauthorized? || ex.response.Relayed?
    ensures issuer(TokenRequestFor(c)).TokenFailed? ==> ex == Exchange(Ko, [PostToken(TokenRequestFor(c))])
    ensures var result := issuer(TokenRequestFor(c));
            result.TokenIssued? && !Truthy(result.accessToken) ==>
              ex == Exchange(Unauthorized, [PostToken(TokenRequestFor(c))])
    ensures var result := issuer(TokenRequestFor(c));
            result.TokenIssued? && Truthy(result.accessToken) ==>
              var req := ResourceRequest(Some(CompanyUrl(c)), Bearer(result.accessToken.value));
              && ex.calls == [PostToken(TokenRequestFor(c)), GetResource(req)]
              && ex.response == (match fetch(req) case Fetched(data) => Relayed(data) case FetchFailed => Ko)
  {
    var tr := TokenRequestFor(c);
    match issuer(tr)
    case TokenFailed => Exchange(Ko, [PostToken(tr)])
    case TokenIssued(token) =>
      var url := CompanyUrl(c);
      if !Truthy(token) then
        Exchange(Unauthorized, [PostToken(tr)])
      else
        var req := ResourceRequest(Some(url), Bearer(token.value));
        match fetch(req)
        case FetchFailed => Exchange(Ko, [PostToken(tr), GetResource(req)])
        case Fetched(data) => Exchange(Relayed(data), [PostToken(tr), GetResource(req)])
  }

  // ---------------------------------------------------------------------
  // GET /wsdlDynamic
  // ---------------------------------------------------------------------

  function WsdlDynamic(accessToken: Field, soapUrl: Field, fetch: ResourceRequest -> FetchResult): (ex: Exchange)
    ensures |ex.calls| <= 1
    ensures !Truthy(accessToken) ==> ex == Exchange(Unauthorized, [])
    ensures Truthy(accessToken) ==>
              var req := ResourceRequest(soapUrl, Bearer(accessToken.value));
              && ex.calls == [GetResource(req)]
              && ex.response == (match fetch(req) case Fetched(data) => Xml(data) case FetchFailed => NoResponse)
  {
    if !Truthy(accessToken) then
      Exchange(Unauthorized, [])
    else
      var req := ResourceRequest(soapUrl, Bearer(accessToken.value));
      match fetch(req)
      case FetchFailed => Exchange(NoResponse, [GetResource(req)])
      case Fetched(data) => Exchange(Xml(data), [GetResource(req)])
  }

  // ---------------------------------------------------------------------
  // POST /methods
  // ---------------------------------------------------------------------

  /** The reply of the `try` block once the SOAP client has been asked for:
      a 500 when there is no client or no such service, otherwise the
      parameter mapping of the port's operations, empty when the service has
      no such port. */
  function MethodsReply(client: Option<Description>, serviceKey: string, portKey: string): (r: Response)
    ensures client.None? ==> r == ServerError(ClientMissing)
    ensures client.Some? && serviceKey !in client.value ==> r == ServerError(ServiceMissing(serviceKey))
    ensures client.Some? && serviceKey in client.value && portKey !in client.value[serviceKey] ==>
              r == Mapping(map[])
    ensures client.Some? && serviceKey in client.value && portKey in client.value[serviceKey] ==>
              var ops := client.value[serviceKey][portKey];
              && r.Mapping?
              && r.parameters.Keys == ops.Keys
              && forall name :: name in r.parameters ==> r.parameters[name] == ops[name].input
  {
    match MethodsList(client, serviceKey, portKey)
    case Threw(fault) => ServerError(fault)
    case Found(methodsList) => Mapping(ParameterMapping(methodsList))
  }

  /** The client request `/methods` makes for a SOAP URL and a token. */
  function ClientRequestFor(c: Config, soapUrl: string, token: string): ClientRequest {
    ClientRequest(ClientUrl(c.server, soapUrl, token), Bearer(token))
  }

  function Methods(c: Config, issuer: TokenRequest -> TokenResult, introspect: ClientRequest -> Option<Description>): (ex: Exchange)
    ensures TokenFlow(ex, TokenRequestFor(c), issuer(TokenRequestFor(c)))
    ensures issuer(TokenRequestFor(c)).TokenFailed? ==> ex == Exchange(NoResponse, [PostToken(TokenRequestFor(c))])
    ensures issuer(TokenRequestFor(c)).TokenIssued? && (!Truthy(c.soapUrl) || !Truthy(c.methodName)) ==>
              ex == Exchange(NoResponse, [PostToken(TokenRequestFor(c))])
    ensures var result := issuer(TokenRequestFor(c));
            result.TokenIssued? && Truthy(c.soapUrl) && Truthy(c.methodName) && !Truthy(result.accessToken) ==>
              ex == Exchange(Unauthorized, [PostToken(TokenRequestFor(c))])
    ensures var result := issuer(TokenRequestFor(c));
            result.TokenIssued? && Truthy(c.soapUrl) && Truthy(c.methodName) && Truthy(result.accessToken) ==>
              var creq := ClientRequestFor(c, c.soapUrl.value, result.accessToken.value);
              && ex.calls == [PostToken(TokenRequestFor(c)), CreateClient(creq)]
              && ex.response == MethodsReply(introspect(creq),
                                             ServiceKey(c.soapUrl.value, c.methodName.value),
                                             PortKey(c.methodName.value))
  {
    var tr := TokenRequestFor(c);
    match issuer(tr)
    case TokenFailed => Exchange(NoResponse, [PostToken(tr)])
    case TokenIssued(token) =>
      if !Truthy(c.soapUrl) || !Truthy(c.methodName) then
        Exchange(NoResponse, [PostToken(tr)])
      else if !Truthy(token) then
        Exchange(Unauthorized, [PostToken(tr)])
      else
        var url, methodName := c.soapUrl.value, c.methodName.value;
        var creq := ClientRequestFor(c, url, token.value);
        var client := introspect(creq);
        var serviceKey := ServiceKey(url, methodName);
        Exchange(MethodsReply(client, serviceKey, PortKey(methodName)), [PostToken(tr), CreateClient(creq)])
  }

  /** The WSDL the SOAP client asks for comes back through the relay's own
      `/wsdlDynamic` route, which fetches the caller's SOAP URL with the same
      bearer token, provided the server host has no `?` and neither the SOAP
      URL nor the token needs URL-encoding. */
  lemma IntrospectionFetchesSoapUrl(c: Config, token: string, fetch: ResourceRequest -> FetchResult)
    requires Truthy(c.soapUrl) && token != ""
    requires '?' !in Interpolate(c.server)
    requires PlainQueryValue(c.soapUrl.value) && PlainQueryValue(token)
    ensures var query := QueryOf(ClientRequestFor(c, c.soapUrl.value, token).wsdlUrl);
            WsdlDynamic(Param(query, "access_token"), Param(query, "SOAPUrl"), fetch).calls
              == [GetResource(ResourceRequest(c.soapUrl, ClientRequestFor(c, c.soapUrl.value, token).wsdlAuthorization))]
  {
    ClientUrlRoundTrip(c.server, c.soapUrl.value, token);
  }
}
