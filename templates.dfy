/** The strings the relay assembles by concatenation: the token endpoint, the
    Authorization header, the OData company URL and the URL under which the
    SOAP client fetches the WSDL back through the relay itself. None of the
    interpolated values is URL-encoded. */
module Templates {
  import opened Values

  // ---------------------------------------------------------------------
  // Token endpoint
  // ---------------------------------------------------------------------

  const TokenUrlPrefix: string := "https://login.microsoftonline.com/"
  const TokenUrlSuffix: string := "/oauth2/V2.0/token"

  /** Where the client-credentials form is posted for a tenant. */
  function TokenUrl(tenant: Field): string {
    TokenUrlPrefix + Interpolate(tenant) + TokenUrlSuffix
  }

  /** The tenant segment of a token endpoint URL, if `url` has that shape. */
  function TenantOf(url: string): (t: Option<string>)
    ensures t.Some? ==> TokenUrlPrefix + t.value + TokenUrlSuffix == url
  {
    var p, q := |TokenUrlPrefix|, |TokenUrlSuffix|;
    if p + q <= |url| && TokenUrlPrefix <= url && url[|url| - q..] == TokenUrlSuffix then
      var t := url[p..|url| - q];
      assert url == url[..p] + t + url[|url| - q..];
      Some(t)
    else
      None
  }

  /** The token endpoint names the tenant it was built for: reading the
      tenant back gives the interpolated tenant field. */
  lemma TokenUrlNamesTenant(tenant: Field)
    ensures TenantOf(TokenUrl(tenant)) == Some(Interpolate(tenant))
  {
  }

  // ---------------------------------------------------------------------
  // Authorization header
  // ---------------------------------------------------------------------

  const BearerScheme: string := "Bearer "

  /** The Authorization header value for a token, as both the resource fetch
      and the WSDL fetch of the SOAP client send it. */
  function Bearer(token: string): string {
    BearerScheme + token
  }

  /** The token a receiving server reads out of an Authorization header. */
  function BearerToken(header: string): (t: Option<string>)
    ensures t.Some? <==> BearerScheme <= header
    ensures t.Some? ==> Bearer(t.value) == header
  {
    if BearerScheme <= header then
      assert header == header[..|BearerScheme|] + header[|BearerScheme|..];
      Some(header[|BearerScheme|..])
    else
      None
  }

  lemma BearerRoundTrip(token: string)
    ensures BearerToken(Bearer(token)) == Some(token)
  {
  }

  // ---------------------------------------------------------------------
  // OData company URL
  // ---------------------------------------------------------------------

  const CompanySegment: string := "/ODataV4/Company('"
  const CompanyClose: string := "')/"

  /** `{baseUrl}/{tenant}/{environment}/ODataV4/Company('{company}')/{append}`. */
  function CompanyUrl(c: Config): string {
    Interpolate(c.baseUrl) + "/" + Interpolate(c.tenant) + "/" + Interpolate(c.environment)
      + CompanySegment + Interpolate(c.company) + CompanyClose + Interpolate(c.append)
  }

  /** The URL of the worked example. */
  lemma CompanyUrlExample(c: Config)
    requires c.baseUrl == Some("https://x") && c.tenant == Some("t1") && c.environment == Some("prod")
    requires c.company == Some("CRONUS") && c.append == Some("Customers")
    ensures CompanyUrl(c) == "https://x/t1/prod/ODataV4/Company('CRONUS')/Customers"
  {
    var u := CompanyUrl(c);
    assert u == "https://x" + "/" + "t1" + "/" + "prod" + CompanySegment + "CRONUS" + CompanyClose + "Customers";
    assert "https://x" + "/" + "t1" + "/" + "prod" == "https://x/t1/prod";
    assert "https://x/t1/prod" + CompanySegment == "https://x/t1/prod/ODataV4/Company('";
    assert "https://x/t1/prod/ODataV4/Company('" + "CRONUS" + CompanyClose == "https://x/t1/prod/ODataV4/Company('CRONUS')/";
  }

  lemma CancelPrefix(p: string, a: string, b: string)
    requires p + a == p + b
    ensures a == b
  {
    assert a == (p + a)[|p|..];
    assert b == (p + b)[|p|..];
  }

  lemma SeparatorAt(x: string, sep: char, r: string)
    ensures (x + [sep] + r)[|x|] == sep
  {
  }

  /** A separator that occurs in neither left part splits both strings at the
      same place. */
  lemma {:induction false} SplitAtSeparator(x1: string, r1: string, x2: string, r2: string, sep: char)
    requires sep !in x1 && sep !in x2
    requires x1 + [sep] + r1 == x2 + [sep] + r2
    ensures x1 == x2 && r1 == r2
  {
    var s := x1 + [sep] + r1;
    if |x1| < |x2| {
      SeparatorAt(x1, sep, r1);
      assert false;
    } else if |x2| < |x1| {
      SeparatorAt(x2, sep, r2);
      assert false;
    } else {
      assert x1 == s[..|x1|];
      assert x2 == (x2 + [sep] + r2)[..|x2|];
      assert r1 == s[|x1| + 1..];
      assert r2 == (x2 + [sep] + r2)[|x2| + 1..];
    }
  }

  /** Over a fixed base URL, the company URL determines the tenant, the
      environment, the company and the appended path, provided the tenant and
      the environment hold no `/` and the company holds no `'`. */
  lemma CompanyUrlDeterminesFields(c1: Config, c2: Config)
    requires Interpolate(c1.baseUrl) == Interpolate(c2.baseUrl)
    requires '/' !in Interpolate(c1.tenant) && '/' !in Interpolate(c2.tenant)
    requires '/' !in Interpolate(c1.environment) && '/' !in Interpolate(c2.environment)
    requires '\'' !in Interpolate(c1.company) && '\'' !in Interpolate(c2.company)
    requires CompanyUrl(c1) == CompanyUrl(c2)
    ensures Interpolate(c1.tenant) == Interpolate(c2.tenant)
    ensures Interpolate(c1.environment) == Interpolate(c2.environment)
    ensures Interpolate(c1.company) == Interpolate(c2.company)
    ensures Interpolate(c1.append) == Interpolate(c2.append)
  {
    var b := Interpolate(c1.baseUrl);
    var t1, t2 := Interpolate(c1.tenant), Interpolate(c2.tenant);
    var e1, e2 := Interpolate(c1.environment), Interpolate(c2.environment);
    var k1, k2 := Interpolate(c1.company), Interpolate(c2.company);
    var a1, a2 := Interpolate(c1.append), Interpolate(c2.append);
    CompanyUrlShape(c1);
    CompanyUrlShape(c2);
    var close1 := [')', '/'] + a1;
    var close2 := [')', '/'] + a2;
    var mid1 := "ODataV4/Company('" + (k1 + ['\''] + close1);
    var mid2 := "ODataV4/Company('" + (k2 + ['\''] + close2);
    var env1 := e1 + ['/'] + mid1;
    var env2 := e2 + ['/'] + mid2;
    CancelPrefix(b + "/", t1 + ['/'] + env1, t2 + ['/'] + env2);
    SplitAtSeparator(t1, env1, t2, env2, '/');
    SplitAtSeparator(e1, mid1, e2, mid2, '/');
    CancelPrefix("ODataV4/Company('", k1 + ['\''] + close1, k2 + ['\''] + close2);
    SplitAtSeparator(k1, close1, k2, close2, '\'');
    CancelPrefix([')', '/'], a1, a2);
  }

  /** The company URL regrouped around its separators. */
  lemma CompanyUrlShape(c: Config)
    ensures CompanyUrl(c) ==
      (Interpolate(c.baseUrl) + "/")
      + (Interpolate(c.tenant) + ['/']
      + (Interpolate(c.environment) + ['/']
      + ("ODataV4/Company('" + (Interpolate(c.company) + ['\''] + ([')', '/'] + Interpolate(c.append))))))
  {
  }

  // ---------------------------------------------------------------------
  // The WSDL URL handed to the SOAP client, and how the relay reads it back
  // ---------------------------------------------------------------------

  const WsdlRoute: string := "/wsdlDynamic"

  /** `{serverHost}/wsdlDynamic?SOAPUrl={url}&access_token={token}`: the SOAP
      client fetches the WSDL through the relay's own `/wsdlDynamic` route. */
  function ClientUrl(serverHost: Field, soapUrl: string, token: string): string {
    Interpolate(serverHost) + WsdlRoute + "?SOAPUrl=" + soapUrl + "&access_token=" + token
  }

  /** The longest prefix of `s` without `sep`. */
  function UpTo(s: string, sep: char): (r: string)
    ensures r <= s && sep !in r
    ensures |r| < |s| ==> s[|r|] == sep
  {
    if |s| == 0 || s[0] == sep then "" else [s[0]] + UpTo(s[1..], sep)
  }

  /** The text after the first `?` of a URL; "" when there is none. */
  function QueryOf(url: string): string {
    if |url| == 0 then "" else if url[0] == '?' then url[1..] else QueryOf(url[1..])
  }

  /** The raw value of the first `name=` parameter of a query string, up to
      the next `&`; no percent-decoding is done. */
  function Param(query: string, name: string): Option<string>
    decreases |query|
  {
    var field := UpTo(query, '&');
    if name + "=" <= field then Some(field[|name| + 1..])
    else if |field| == |query| then None
    else Param(query[|field| + 1..], name)
  }

  /** A value that a query string carries unchanged: no `&` or `#` to cut it,
      and no `%` or `+` for a decoding reader to rewrite. */
  predicate PlainQueryValue(s: string) {
    '&' !in s && '#' !in s && '%' !in s && '+' !in s
  }

  lemma {:induction false} UpToWhole(a: string, sep: char, rest: string)
    requires sep !in a
    ensures UpTo(a, sep) == a
    ensures UpTo(a + [sep] + rest, sep) == a
  {
    if |a| > 0 {
      UpToWhole(a[1..], sep, rest);
      assert (a + [sep] + rest)[1..] == a[1..] + [sep] + rest;
      assert a == [a[0]] + a[1..];
    } else {
      assert (a + [sep] + rest)[0] == sep;
    }
  }

  lemma {:induction false} QueryAfterFirstMark(h: string, rest: string)
    requires '?' !in h
    ensures QueryOf(h + "?" + rest) == rest
  {
    if |h| > 0 {
      assert (h + "?" + rest)[1..] == h[1..] + "?" + rest;
      QueryAfterFirstMark(h[1..], rest);
    } else {
      assert h + "?" + rest == "?" + rest;
    }
  }

  lemma ClientUrlQuery(serverHost: Field, soapUrl: string, token: string)
    requires '?' !in Interpolate(serverHost)
    ensures QueryOf(ClientUrl(serverHost, soapUrl, token)) == "SOAPUrl=" + soapUrl + "&access_token=" + token
  {
    var h := Interpolate(serverHost) + WsdlRoute;
    var query := "SOAPUrl=" + soapUrl + "&access_token=" + token;
    assert '?' !in h;
    assert ClientUrl(serverHost, soapUrl, token) == h + "?" + query;
    QueryAfterFirstMark(h, query);
  }

  lemma ParamHere(query: string, name: string)
    requires name + "=" <= UpTo(query, '&')
    ensures Param(query, name) == Some(UpTo(query, '&')[|name| + 1..])
  {
  }

  lemma ParamSkip(query: string, name: string)
    requires !(name + "=" <= UpTo(query, '&')) && |UpTo(query, '&')| < |query|
    ensures Param(query, name) == Param(query[|UpTo(query, '&')| + 1..], name)
  {
  }

  lemma ParamOfFirst(first: string, name: string, value: string, rest: string)
    requires first == name + "=" + value && '&' !in first
    ensures Param(first + ['&'] + rest, name) == Some(value)
  {
    UpToWhole(first, '&', rest);
    ParamHere(first + ['&'] + rest, name);
    assert first[|name| + 1..] == value;
  }

  lemma ParamOfSecond(first: string, name: string, value: string)
    requires '&' !in first && !(name + "=" <= first)
    requires '&' !in value && '&' !in name
    ensures Param(first + ['&'] + (name + "=" + value), name) == Some(value)
  {
    var second := name + "=" + value;
    var query := first + ['&'] + second;
    UpToWhole(first, '&', second);
    ParamSkip(query, name);
    assert query[|first| + 1..] == second;
    assert '&' !in second;
    UpToWhole(second, '&', "");
    ParamHere(second, name);
    assert second[|name| + 1..] == value;
  }

  /** When the relay's own `/wsdlDynamic` route receives the WSDL URL, it
      reads back the SOAP URL and the token it was built from, provided the
      server host has no `?` and both values are plain query values. Without
      URL-encoding, a SOAP URL holding `&` would be cut short here. */
  lemma ClientUrlRoundTrip(serverHost: Field, soapUrl: string, token: string)
    requires '?' !in Interpolate(serverHost)
    requires PlainQueryValue(soapUrl) && PlainQueryValue(token)
    ensures Param(QueryOf(ClientUrl(serverHost, soapUrl, token)), "SOAPUrl") == Some(soapUrl)
    ensures Param(QueryOf(ClientUrl(serverHost, soapUrl, token)), "access_token") == Some(token)
  {
    ClientUrlQuery(serverHost, soapUrl, token);
    var first := "SOAPUrl=" + soapUrl;
    var second := "access_token" + "=" + token;
    assert "access_token" + "=" == "access_token=";
    assert "SOAPUrl=" + soapUrl + "&access_token=" + token == first + ['&'] + second;
    ParamOfFirst(first, "SOAPUrl", soapUrl, second);
    assert !("access_token" + "=" <= first) by { assert first[0] != 'a'; }
    ParamOfSecond(first, "access_token", token);
  }
}
