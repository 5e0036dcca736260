/**
 * The single-file version of the client: the same connection and the same
 * validate/rename/default pipeline, but no exception tables, so every
 * failure of the request leaves the call; and a smaller catalogue.
 */
module Legacy {
  import opened Values
  import opened Exceptions
  import opened Params
  import opened Session
  import Client
  import Catalogue

  /** An entry of the single-file `operation_map`: like the package's, without `exceptions`. */
  datatype LegacySpec = LegacySpec(name: string, httpMethod: string, parameters: seq<ParamSpec>, response: Option<string>)

  /** The same entry in the package's form, with an empty exception table. */
  function Lift(spec: LegacySpec): Client.OperationSpec {
    Client.OperationSpec(spec.name, spec.httpMethod, spec.parameters, spec.response, [])
  }

  /** One call of a single-file operation: the specification Invoke is proved against. */
  function Outcome(spec: LegacySpec, kwargs: map<string, Value>, produce: nat -> Value,
                   st: SessionState, credentials: Credentials, userAgent: string, t: Transport,
                   search: (string, Json) -> Json): Client.Invocation
  {
    match Validate(spec.parameters, kwargs.Keys)
    case Some(reason) => Client.Invocation(Client.Raised(TypeError(reason)), st, [])
    case None =>
      var step := RtecmStep(st, credentials, userAgent, spec.name, WireKwargs(spec.parameters, kwargs, produce), t);
      var result := match step.result
        case Err(e) => Client.Raised(e)
        case Ok(json) =>
          match spec.response
          case None => Client.NoResponse
          case Some(query) => Client.Returned(search(query, json));
      Client.Invocation(result, step.state, step.sent)
  }

  /** The single-file pipeline is the package's with an empty exception table. */
  lemma OutcomeIsPackageWithoutHandlers(spec: LegacySpec, kwargs: map<string, Value>, produce: nat -> Value,
                                        st: SessionState, credentials: Credentials, userAgent: string, t: Transport,
                                        search: (string, Json) -> Json)
    ensures Outcome(spec, kwargs, produce, st, credentials, userAgent, t, search)
         == Client.Outcome(Lift(spec), kwargs, produce, st, credentials, userAgent, t, search)
  {
  }

  /** Every failure of the request, a 404 included, reaches the caller unchanged. */
  lemma ErrorsPropagate(spec: LegacySpec, kwargs: map<string, Value>, produce: nat -> Value,
                        st: SessionState, credentials: Credentials, userAgent: string, t: Transport,
                        search: (string, Json) -> Json)
    requires Validate(spec.parameters, kwargs.Keys).None?
    ensures var step := RtecmStep(st, credentials, userAgent, spec.name, WireKwargs(spec.parameters, kwargs, produce), t);
            var out := Outcome(spec, kwargs, produce, st, credentials, userAgent, t, search);
            && out.state == step.state && out.sent == step.sent
            && (step.result.Err? ==> out.result == Client.Raised(step.result.error))
            && (step.result.Ok? ==> !out.result.StructuredError? && !out.result.Raised?)
  {
  }

  /** `getattr(connection, name)(**kwargs)` on a single-file connection. */
  method Invoke(conn: Connection, spec: LegacySpec, kwargs: map<string, Value>, produce: nat -> Value,
                t: Transport, search: (string, Json) -> Json) returns (r: Client.CallResult)
    requires conn.Valid()
    modifies conn`svu, conn`operationKeys, conn`sent
    ensures conn.Valid()
    ensures var out := Outcome(spec, kwargs, produce, old(conn.State()), conn.credentials, conn.userAgent, t, search);
            r == out.result && conn.State() == out.state && conn.sent == old(conn.sent) + out.sent
  {
    var expected := Expected(spec.parameters);
    var required := Required(spec.parameters);
    var actual := kwargs.Keys;
    if actual - expected != {} {
      return Client.Raised(TypeError(Unexpected(actual - expected)));
    }
    if required - actual != {} {
      return Client.Raised(TypeError(Missing(required - actual)));
    }
    var wire := BuildWireKwargs(spec.parameters, kwargs, produce);
    var resp := conn.Rtecm(spec.name, wire, t);
    if resp.Err? {
      return Client.Raised(resp.error);
    }
    r := match spec.response
      case None => Client.NoResponse
      case Some(query) => Client.Returned(search(query, resp.value));
  }

  /** The single-file catalogue: `get_stations_by_id` does not exist yet. */
  datatype OperationId = SetRating | GetStations | GetStation | GetToken

  function Identifier(op: OperationId): string {
    match op
    case SetRating => "set_rating"
    case GetStations => "get_stations"
    case GetStation => "get_station"
    case GetToken => "get_token"
  }

  /** The package operation bound under the same attribute name. */
  function Successor(op: OperationId): (successor: Catalogue.OperationId)
    ensures Catalogue.Identifier(successor) == Identifier(op)
  {
    match op
    case SetRating => Catalogue.SetRating
    case GetStations => Catalogue.GetStations
    case GetStation => Catalogue.GetStation
    case GetToken => Catalogue.GetToken
  }

  function Spec(op: OperationId): LegacySpec {
    match op
    case SetRating =>
      LegacySpec("setRating", "post",
        [ ParamSpec("session_id", None, true, NoDefault, IntKind),
          ParamSpec("rating", None, true, NoDefault, IntKind),
          ParamSpec("token", Some("stream_token"), true, NoDefault, StrKind),
          ParamSpec("station_id", None, true, NoDefault, IntKind),
          ParamSpec("reason", None, true, NoDefault, StrKind) ],
        None)
    case GetStations =>
      LegacySpec("getExploreStations", "post", [],
        Some("*[*].{station_id:id, name:name, canonical_name:string_id}[]"))
    case GetStation =>
      LegacySpec("getStation", "post",
        [ ParamSpec("id", Some("station_id"), true, NoDefault, IntKind) ],
        Some("{station_id: id, name: name, canonical_name: string_id}"))
    case GetToken =>
      LegacySpec("getTokenJSON", "post",
        [ ParamSpec("sid", Some("station_id"), true, NoDefault, IntKind),
          ParamSpec("m", None, false, Static(BoolVal(false)), BoolKind),
          ParamSpec("pt", Some("previous_session_token"), false, NoDefault, StrKind) ],
        Some("{session_id: id, group: group, name: name, station_id: station_id, session_token: token}"))
  }

  /**
   * Every single-file operation survives in the package under the same
   * attribute name, wire name and parameter contract, so a call validates
   * and sends the same arguments in both versions.
   */
  lemma PackageKeepsContracts(op: OperationId)
    ensures Spec(op).name == Catalogue.Spec(Successor(op)).name
    ensures Spec(op).parameters == Catalogue.Spec(Successor(op)).parameters
    ensures Spec(op).httpMethod == Catalogue.Spec(Successor(op)).httpMethod
  {
  }

  /** The single-file catalogue keeps the same invariants as the package's. */
  lemma CatalogueWellFormed(op: OperationId)
    ensures Client.WellFormed(Lift(Spec(op)))
  {
    PackageKeepsContracts(op);
    Catalogue.CatalogueWellFormed(Successor(op));
  }

  /**
   * Where the package answers an unknown station with a structured error,
   * the single-file version raises the HTTP error of the request.
   */
  lemma UnknownStationRaises(id: Value, produce: nat -> Value, st: SessionState, credentials: Credentials,
                             userAgent: string, t: Transport, search: (string, Json) -> Json)
    requires RtecmStep(st, credentials, userAgent, "getStation", map["id" := id], t).result == Err(HTTPError(404))
    ensures Outcome(Spec(GetStation), map["station_id" := id], produce, st, credentials, userAgent, t, search).result
         == Client.Raised(HTTPError(404))
    ensures Client.Outcome(Catalogue.Spec(Catalogue.GetStation), map["station_id" := id], produce, st, credentials, userAgent, t, search).result
         == Client.StructuredError(map["code" := "UnknownStationID", "error" := "Unknown station " + ToStr(id)])
  {
    Catalogue.GetStationArguments(id, produce);
    assert map["station_id" := id].Keys == {"station_id"};
    PackageKeepsContracts(GetStation);
    ErrorsPropagate(Spec(GetStation), map["station_id" := id], produce, st, credentials, userAgent, t, search);
    Catalogue.GetStationFailure(id, produce, st, credentials, userAgent, t, search);
  }
}
