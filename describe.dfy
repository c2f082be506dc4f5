/** The introspection result of the SOAP client and the reshaping `/methods`
    does on it: look up the service, then the port, then copy each
    operation's input shape into a fresh mapping. */
module Describe {
  import opened Values

  /** One operation as `describe()` reports it. */
  datatype Op = Op(input: Json, output: Json)

  /** `describe()`: service name to port name to operation name to operation. */
  type Description = map<string, map<string, map<string, Op>>>

  /** Why the lookup threw inside the `try` of `/methods`. On the wire both
      become `{status: 500, error: ...}`. */
  datatype Fault =
    | ClientMissing                    // `client` is null, so `client.describe()` throws
    | ServiceMissing(serviceKey: string) // `clientDescribe[soapURLName]` is undefined, so indexing it throws

  /** The outcome of `clientDescribe[serviceKey][portKey]`: a thrown fault, or
      the operations table, `None` standing for `undefined` when the service
      has no such port. */
  datatype Lookup = Threw(fault: Fault) | Found(methodsList: Option<map<string, Op>>)

  function MethodsList(client: Option<Description>, serviceKey: string, portKey: string): (r: Lookup)
    ensures r == Threw(ClientMissing) <==> client.None?
    ensures r == Threw(ServiceMissing(serviceKey)) <==> client.Some? && serviceKey !in client.value
    ensures r.Threw? || r.Found?
    ensures r.Found? <==> client.Some? && serviceKey in client.value
    ensures r.Found? ==> (r.methodsList.Some? <==> portKey in client.value[serviceKey])
    ensures r.Found? && r.methodsList.Some? ==> r.methodsList.value == client.value[serviceKey][portKey]
  {
    match client
    case None => Threw(ClientMissing)
    case Some(d) =>
      if serviceKey !in d then Threw(ServiceMissing(serviceKey))
      else if portKey !in d[serviceKey] then Found(None)
      else Found(Some(d[serviceKey][portKey]))
  }

  /** The parameter mapping: every operation name of the table mapped to that
      operation's input shape; nothing at all when the table is undefined. */
  function ParameterMapping(methodsList: Option<map<string, Op>>): map<string, Json> {
    match methodsList
    case None => map[]
    case Some(ops) => map name | name in ops :: ops[name].input
  }

  /** The `for ... in` loop that fills `parameterMapping`, one own key of the
      operations table at a time, in whatever order the table yields them. */
  method BuildParameterMapping(methodsList: Option<map<string, Op>>) returns (mapping: map<string, Json>)
    ensures methodsList.None? ==> mapping == map[]
    ensures methodsList.Some? ==> mapping.Keys == methodsList.value.Keys
    ensures methodsList.Some? ==> forall name :: name in mapping ==> mapping[name] == methodsList.value[name].input
    ensures mapping == ParameterMapping(methodsList)
  {
    mapping := map[];
    if methodsList.Some? {
      var ops := methodsList.value;
      var pending := ops.Keys;
      while pending != {}
        invariant pending <= ops.Keys
        invariant mapping.Keys == ops.Keys - pending
        invariant forall name :: name in mapping ==> mapping[name] == ops[name].input
        decreases pending
      {
        var name :| name in pending;
        mapping := mapping[name := ops[name].input];
        pending := pending - {name};
      }
    }
  }
}
