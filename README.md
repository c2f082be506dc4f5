# A verified model of the BC365 OAuth2/SOAP relay core

The relay is a small Express service (`app.js`). It exchanges client credentials for a bearer token at the Microsoft identity platform. With that token it either fetches an OData company resource (`POST /odatav4/company`) or fetches a WSDL document for a caller (`GET /wsdlDynamic`). Its third route, `POST /methods`, has a SOAP client introspect a WSDL and reshapes the result into a map from operation name to input-parameter shape for a front end.

This project models the computations embedded in those handlers:

- the method-name normalisation `replace(/\. |\s/g, "_")` and the service and port keys derived from it;
- the nested lookup into the `describe()` result and the `for … in` loop that builds the parameter mapping;
- the string templates: the token endpoint, the `Bearer` header, the OData company URL, and the WSDL URL the SOAP client is given;
- the branching of the three handlers.

Each handler is a function from the request and its environment to an `Exchange`, which holds the reply sent and the outbound calls made, in order. The environment is passed in as total function parameters:

- `issuer` answers the token POST;
- `fetch` answers an authenticated GET;
- `introspect` answers a SOAP client creation, with `None` when `getClientSoap` returns `null`.

Because these are parameters, every lemma covers every answer the network could give.

Files:

- `values.dfy`: request fields as JavaScript sees them (`undefined` or a string), truthiness, template interpolation, JSON values and the posted configuration.
- `method_names.dfy`: normalisation, what it means (a left-to-right scan into matches and kept characters), `includes`, and the two keys.
- `templates.dfy`: the concatenated URLs and headers, each with a reader that recovers what went in.
- `describe.dfy`: the introspection result, the lookup, and the parameter-mapping loop as a method.
- `handlers.dfy`: the three routes and the token-first control flow they share.

Behaviour of the code that a reader might not expect, which the model follows exactly:

- Each whitespace character becomes its own `_`. A run of whitespace is not collapsed into one (`NormalizeSpaceRun`).
- `/Page/` is searched for anywhere in the SOAP URL string, not only in its path.
- In `/methods`, a null client (`getClientSoap` caught an error and returned `null`) or a missing service key gives a 500. A missing port key gives an empty mapping.
- `/methods` checks `SOAPUrl` and `methodName` before it checks the token. When either is missing, nothing is sent, whatever the token.
- When the token POST itself fails in `/methods`, the `.catch` only logs and no reply is sent. `/odatav4/company` replies `{status: "ko"}` in that case.

## Model

| member | source | states |
|---|---|---|
| `MethodNames.Normalize` | app.js:142 | the normalised name is never longer than the input, since each match of one or two characters becomes one `_` |
| `MethodNames.NormalizeLeavesNoWhitespace` | app.js:142 | the normalised name holds no character of `IsWs`, which is the JavaScript `\s` class (the ECMAScript WhiteSpace and LineTerminator code points) |
| `MethodNames.NormalizeIsRenderedScan` | app.js:142 | for the left-to-right scan of the name into `". "` matches, single-whitespace matches and uncovered characters, the result is that scan with each match written as one `_` and each other character kept, in order |
| `MethodNames.ScanOf` | app.js:142 | every name has such a scan, so the characterisation above applies to every input |
| `MethodNames.ScanUnique` | app.js:142 | a name has only one such scan, so the characterisation describes the one cut the regular expression makes |
| `MethodNames.RenderAt` | app.js:142 | the i-th character written is the replacement of the i-th piece of the scan |
| `MethodNames.NormalizeKeepsClean` | app.js:142 | a name without whitespace is returned unchanged |
| `MethodNames.NormalizeIdempotent` | app.js:142 | normalising twice gives the same result as normalising once |
| `MethodNames.NormalizeAppend` | app.js:142 | normalisation distributes over concatenation unless a `.` ending the first part meets a space starting the second |
| `MethodNames.NormalizeSpaceJoined` | app.js:142-143 | two clean words joined by a space come out joined by one `_` ("Get Customers" gives "Get_Customers") |
| `MethodNames.NormalizeDotSpaceJoined` | app.js:142-143 | two clean words joined by `". "` come out joined by one `_` |
| `MethodNames.NormalizeSpaceRun` | app.js:142 | two spaces give two underscores: runs are not collapsed |
| `MethodNames.IncludesMeansOccurs` | app.js:144 | `Includes`, the `url.includes` call, is true exactly when the substring occurs at some position |
| `MethodNames.ServiceKeyRule` | app.js:144 | `ServiceKey`, the service key, is the normalised name plus `_Service` if and only if the SOAP URL contains `/Page/`, and the bare normalised name if and only if it does not |
| `MethodNames.KeysShape` | app.js:144-146 | `ServiceKey` (l.144) and `PortKey`, the normalised name plus `_Port` (l.146), are whitespace-free, the port key differs from the service key, and the port key is at most five characters longer than the method name |
| `MethodNames.TwoWordKeys` | app.js:142-146 | for a two-word name, the port key is `w1_w2_Port`, and with a `/Page/` URL the service key is `w1_w2_Service` |
| `Templates.TenantOf` | app.js:40 | a tenant read out of a token URL rebuilds exactly that URL with `TokenUrl`, the l.40 template |
| `Templates.TokenUrlNamesTenant` | app.js:40 | `TokenUrl` for a tenant yields `Interpolate` of that tenant when read back: the tenant itself, or `undefined` when it is missing, as `${x}` renders it |
| `Templates.BearerToken` | app.js:22 | a header is read as a bearer token exactly when it starts with `Bearer `, and the token read rebuilds the header |
| `Templates.BearerRoundTrip` | app.js:66 | reading `Bearer(token)`, the header built at l.22 and l.66, gives back the token |
| `Templates.CompanyUrlExample` | app.js:100 | the worked OData example renders as `https://x/t1/prod/ODataV4/Company('CRONUS')/Customers` |
| `Templates.CompanyUrlDeterminesFields` | app.js:100 | over one base URL, `CompanyUrl`, the l.100 template, determines tenant, environment, company and appended path, when the tenant and environment contain no `/` and the company contains no `'` |
| `Templates.ClientUrlQuery` | app.js:25 | the query of `ClientUrl`, the l.25 template, is `SOAPUrl=<url>&access_token=<token>` when the server host has no `?` |
| `Templates.ClientUrlRoundTrip` | app.js:25 | the `SOAPUrl` and `access_token` query parameters of the WSDL URL read back the values it was built from, when neither holds `&`, `#`, `%` or `+` |
| `Describe.MethodsList` | app.js:145-146 | the lookup throws for a null client or a missing service key, and otherwise yields the port's operations table, undefined exactly when the port key is missing |
| `Describe.BuildParameterMapping` | app.js:147-153 | the loop's mapping has exactly the table's operation names as keys, each mapped to that operation's `input`; it is empty when the table is undefined; and it equals `ParameterMapping`, the same mapping as a comprehension |
| `Handlers.TokenRequestFor` | app.js:39-46 | the token POST goes to the tenant's endpoint with the five form fields in order, carrying the five configured values |
| `Handlers.Company` | app.js:95-109 | `TokenFlow` holds and the token POST comes first; a failed POST gives `ko`; a missing token (`!Truthy`, the JavaScript `!x` at l.101) gives the 401 payload and no resource fetch; otherwise exactly one GET of the OData URL with `Bearer <token>` is made, relaying its body or giving `ko` |
| `Handlers.WsdlDynamic` | app.js:114-124 | a missing or empty `access_token` (`!Truthy`, l.117) gives the 401 payload with no outbound call; otherwise exactly one GET of `SOAPUrl` with `Bearer <token>` is made, answered as XML, or not answered when it fails |
| `Handlers.MethodsReply` | app.js:141-158 | a null client or a missing service key gives a 500 payload; a missing port key gives an empty mapping; otherwise the mapping has the port's operation names as keys, each mapped to its input |
| `Handlers.Methods` | app.js:129-163 | `TokenFlow` holds and the token POST comes first; a failed POST or a `SOAPUrl`/`methodName` that is not `Truthy` (l.137) sends nothing, whatever the token; then a missing token gives the 401 payload with no introspection; otherwise one client creation for the WSDL URL with the bearer header is made, and the reply uses the derived service and port keys |
| `Handlers.IntrospectionFetchesSoapUrl` | app.js:20-26 | `ClientRequestFor`, the client request of l.20-26, gives the SOAP client a WSDL URL that brings the relay's own `/wsdlDynamic` route (l.115-118) to fetch the caller's SOAP URL with the same bearer header |

`Handlers.TokenFlow` is stated on `Company` and `Methods`. It says the token POST is the first call, at most one dependent call follows, that call is made only when a truthy token came back, and it carries exactly that token.

## Left out

- Express setup, CORS, `express.json`, `listen` and the constant `GET /` reply (app.js:78-90): framework wiring with no logic.
- The HTTP transport through axios and form-data (app.js:39-57, 65-76) is network I/O. The token response and the fetched bodies are the results of the `issuer` and `fetch` parameters. Whatever form-data does with an `undefined` field is part of the issuer's answer.
- `soap.createClientAsync` and the internals of `describe()` (app.js:26, 145) are a foreign library doing network I/O. The `introspect` parameter returns the describe result, or `None` when `getClientSoap` caught an error and returned `null`.
- Form-data's `append` throws on an `undefined` value, so `getOauth2` rejects before any POST is sent when the configuration lacks one of the five credential fields. For such a configuration the recorded `PostToken` is nominal, and `issuer` should answer `TokenFailed`. The model does not force that answer, because form-data's code is not part of this model.
- Promise chaining, logging and asynchronous error propagation (app.js:105-108, 123, 160-162) appear only as the `NoResponse` and `Ko` replies. `console` calls are left out.
- Request fields are modelled as absent or strings. A JSON number or object in `methodName` would make `replace` throw, which becomes a 500, and would render differently in the templates. That is not modelled.
- Property lookups are modelled on own keys only. A key such as `constructor` reaches an inherited property of a JavaScript object; the model treats it like any other missing key.
- An operation entry whose value is `null` would make reading `.input` throw. `Op` always carries an input.
- `Describe.Fault` tells a null client from a missing service. On the wire both are `{status: 500, error: {}}`, because `JSON.stringify` drops a `TypeError`'s own properties.
- The query reader `Templates.Param` reads raw query values, with no percent-decoding and no arrays for repeated parameters. `ClientUrlRoundTrip` therefore demands values free of `&`, `#`, `%` and `+`, which a decoding reader also leaves unchanged.
- URL-encoding of `SOAPUrl` and `access_token` is not done by the code, so none is modelled: the templates are plain concatenation.
- `Json` numbers are integers; floating point is not modelled.
- Iteration order of `for … in` is not modelled. The loop takes the keys in an arbitrary order, and its result does not depend on that order.
