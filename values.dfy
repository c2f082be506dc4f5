/** Values that cross the relay's HTTP boundary: request fields as JavaScript
    sees them, JSON payloads, and the configuration a caller posts. */
module Values {

  datatype Option<+T> = None | Some(value: T)

  /** A JSON value, used for upstream response bodies and for the parameter
      shapes that WSDL introspection reports. */
  datatype Json =
    | JNull
    | JBool(b: bool)
    | JNumber(n: int)
    | JString(s: string)
    | JArray(items: seq<Json>)
    | JObject(fields: map<string, Json>)

  /** A field of a request body or query string: absent (JavaScript
      `undefined`) or a string. */
  type Field = Option<string>

  /** JavaScript truthiness of a field: `undefined` and `""` are falsy. */
  predicate Truthy(f: Field) {
    f.Some? && f.value != ""
  }

  /** What `${f}` in a template literal produces: an absent field renders as
      the text "undefined". */
  function Interpolate(f: Field): string {
    match f
    case None => "undefined"
    case Some(s) => s
  }

  /** The JSON body a caller posts to `/odatav4/company` and `/methods`
      (credentials, OData coordinates and the SOAP target), field by field. */
  datatype Config = Config(
    tenant: Field,
    clientId: Field,
    clientSecret: Field,
    grantType: Field,
    scope: Field,
    baseUrl: Field,
    environment: Field,
    company: Field,
    append: Field,
    soapUrl: Field,
    methodName: Field,
    server: Field)
}
