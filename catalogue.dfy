/**
 * The package's `operation_map`: the closed set of operations bound onto
 * `Connection`, their parameter contracts, projections and exception
 * tables, and the invariants the table satisfies.
 */
module Catalogue {
  import opened Values
  import opened Exceptions
  import opened Params
  import opened Templates
  import opened Session
  import opened Client

  datatype OperationId = SetRating | GetStations | GetStationsById | GetStation | GetToken

  /** The attribute name under which the operation is bound on `Connection`. */
  function Identifier(op: OperationId): string {
    match op
    case SetRating => "set_rating"
    case GetStations => "get_stations"
    case GetStationsById => "get_stations_by_id"
    case GetStation => "get_station"
    case GetToken => "get_token"
  }

  /** Looking an operation up by its attribute name; names outside the catalogue find nothing. */
  function Lookup(identifier: string): (r: Option<OperationId>)
    ensures forall op :: r == Some(op) <==> Identifier(op) == identifier
  {
    if identifier == "set_rating" then Some(SetRating)
    else if identifier == "get_stations" then Some(GetStations)
    else if identifier == "get_stations_by_id" then Some(GetStationsById)
    else if identifier == "get_station" then Some(GetStation)
    else if identifier == "get_token" then Some(GetToken)
    else None
  }

  function RequiredParam(name: string, kind: Kind): ParamSpec {
    ParamSpec(name, None, true, NoDefault, kind)
  }

  function RequiredAliasParam(name: string, alias: string, kind: Kind): ParamSpec {
    ParamSpec(name, Some(alias), true, NoDefault, kind)
  }

  /** `on_exception(HTTPError, lambda e: e.response.status_code == 404)` */
  function NotFound(): Exception -> bool {
    OnException(HTTPErrorType, Some(StatusIs(404)))
  }

  const StationFields := "{station_id: id, name: name, canonical_name: string_id, parent_id: parent_id}"

  /** The `Error` prototype of a station lookup that found nothing; `wireName` is the station's wire name. */
  function StationPrototype(wireName: string): seq<(string, string)> {
    [("code", "UnknownStationID"), ("error", "Unknown station {" + wireName + "}")]
  }

  const SetRatingSpec := OperationSpec("setRating", "post",
    [ RequiredParam("session_id", IntKind),
      RequiredParam("rating", IntKind),
      RequiredAliasParam("token", "stream_token", StrKind),
      RequiredParam("station_id", IntKind),
      RequiredParam("reason", StrKind) ],
    None, [])

  const GetStationsSpec := OperationSpec("getExploreStations", "post", [], Some("*[*]." + StationFields + "[]"), [])

  const GetStationsByIdSpec := OperationSpec("getStationsByID", "post",
    [ RequiredAliasParam("pid", "parent_id", IntKind) ],
    Some("stations[]." + StationFields), [])

  const GetStationSpec := OperationSpec("getStation", "post",
    [ RequiredAliasParam("id", "station_id", IntKind) ],
    Some("{station_id: id, name: name, canonical_name: string_id, playable: player}"),
    [ Handler(NotFound(), StationPrototype("id")) ])

  const GetTokenSpec := OperationSpec("getTokenJSON", "post",
    [ RequiredAliasParam("sid", "station_id", IntKind),
      ParamSpec("m", None, false, Static(BoolVal(false)), BoolKind),
      ParamSpec("pt", Some("previous_session_token"), false, NoDefault, StrKind) ],
    Some("{session_id: id, group: group, name: name, station_id: station_id, session_token: token}"),
    [ Handler(NotFound(), StationPrototype("sid")) ])

  function Spec(op: OperationId): OperationSpec {
    match op
    case SetRating => SetRatingSpec
    case GetStations => GetStationsSpec
    case GetStationsById => GetStationsByIdSpec
    case GetStation => GetStationSpec
    case GetToken => GetTokenSpec
  }

  lemma CodeTemplate(wire: map<string, Value>)
    ensures Fields("UnknownStationID") == Some({})
    ensures Format("UnknownStationID", wire) == Ok("UnknownStationID")
  {
    FieldsLiteralPrefix("UnknownStationID", "");
    assert "UnknownStationID" + "" == "UnknownStationID";
    FormatLiteral("UnknownStationID", wire);
  }

  lemma ErrorTemplate(wireName: string, wire: map<string, Value>)
    requires BraceFree(wireName) && wireName != ""
    ensures Fields("Unknown station {" + wireName + "}") == Some({wireName})
    ensures wireName in wire ==>
              Format("Unknown station {" + wireName + "}", wire) == Ok("Unknown station " + ToStr(wire[wireName]))
  {
    var text := "Unknown station ";
    assert BraceFree(text);
    assert "Unknown station {" + wireName + "}" == text + "{" + wireName + "}" + "";
    FieldsField(text, wireName, "");
    assert Fields("") == Some({});
    assert {wireName} + {} == {wireName};
    FormatField(text, wireName, "", wire);
    assert Format("", wire) == Ok("");
    if wireName in wire {
      assert (text + ToStr(wire[wireName])) + "" == text + ToStr(wire[wireName]);
    }
  }

  /** The station prototype is a dict of well-formed templates whose only field is the station's wire name. */
  lemma StationPrototypeFields(wireName: string)
    requires BraceFree(wireName) && wireName != ""
    ensures DistinctKeys(StationPrototype(wireName))
    ensures Fields(StationPrototype(wireName)[0].1) == Some({})
    ensures Fields(StationPrototype(wireName)[1].1) == Some({wireName})
  {
    CodeTemplate(map[]);
    ErrorTemplate(wireName, map[]);
  }

  /** Rendering the station prototype names the station as `str()` writes it. */
  lemma StationPrototypeRendered(wireName: string, wire: map<string, Value>)
    requires BraceFree(wireName) && wireName != "" && wireName in wire
    ensures Rendered(StationPrototype(wireName), wire)
         == Ok(map["code" := "UnknownStationID", "error" := "Unknown station " + ToStr(wire[wireName])])
  {
    CodeTemplate(wire);
    ErrorTemplate(wireName, wire);
    RenderedPair(("code", "UnknownStationID"), ("error", "Unknown station {" + wireName + "}"), wire);
  }

  lemma SetRatingWellFormed()
    ensures WellFormed(SetRatingSpec)
  {
  }

  lemma GetStationsWellFormed()
    ensures WellFormed(GetStationsSpec)
  {
  }

  lemma GetStationsByIdWellFormed()
    ensures WellFormed(GetStationsByIdSpec)
  {
  }

  lemma GetStationWellFormed()
    ensures WellFormed(GetStationSpec)
  {
    StationPrototypeFields("id");
    var params := GetStationSpec.parameters;
    assert params[0].required && params[0].name == "id";
    assert "id" in RequiredWireNames(params);
  }

  lemma GetTokenWellFormed()
    ensures WellFormed(GetTokenSpec)
  {
    StationPrototypeFields("sid");
    var params := GetTokenSpec.parameters;
    assert params[0].required && params[0].name == "sid";
    assert "sid" in RequiredWireNames(params);
  }

  /** Every catalogue entry satisfies the invariants of WellFormed. */
  lemma CatalogueWellFormed(op: OperationId)
    ensures WellFormed(Spec(op))
  {
    match op
    case SetRating => SetRatingWellFormed();
    case GetStations => GetStationsWellFormed();
    case GetStationsById => GetStationsByIdWellFormed();
    case GetStation => GetStationWellFormed();
    case GetToken => GetTokenWellFormed();
  }

  /** Distinct operations use distinct wire names, so each looks up its own operation key. */
  lemma WireNamesDistinct(a: OperationId, b: OperationId)
    ensures Spec(a).name == Spec(b).name ==> a == b
  {
  }

  /**
   * A failed request of an operation whose only handler is the station
   * lookup's: a 404 becomes the structured error naming the station, any
   * other exception is raised unchanged.
   */
  lemma StationLookupFailure(spec: OperationSpec, wireName: string, kwargs: map<string, Value>, produce: nat -> Value,
                             st: SessionState, credentials: Credentials, userAgent: string, t: Transport,
                             search: (string, Json) -> Json)
    requires spec.exceptions == [Handler(NotFound(), StationPrototype(wireName))]
    requires BraceFree(wireName) && wireName != ""
    requires Validate(spec.parameters, kwargs.Keys).None?
    requires wireName in WireKwargs(spec.parameters, kwargs, produce)
    requires RtecmStep(st, credentials, userAgent, spec.name, WireKwargs(spec.parameters, kwargs, produce), t).result.Err?
    ensures var wire := WireKwargs(spec.parameters, kwargs, produce);
            var e := RtecmStep(st, credentials, userAgent, spec.name, wire, t).result.error;
            Outcome(spec, kwargs, produce, st, credentials, userAgent, t, search).result
              == if e == HTTPError(404)
                 then StructuredError(map["code" := "UnknownStationID", "error" := "Unknown station " + ToStr(wire[wireName])])
                 else Raised(e)
  {
    var wire := WireKwargs(spec.parameters, kwargs, produce);
    var e := RtecmStep(st, credentials, userAgent, spec.name, wire, t).result.error;
    OutcomeOfSentCall(spec, kwargs, produce, st, credentials, userAgent, t, search);
    OnHttpStatusMatchesExactly(404);
    if e == HTTPError(404) {
      assert IsFirstMatch(spec.exceptions, e, 0);
      StationPrototypeRendered(wireName, wire);
    } else {
      assert !spec.exceptions[0].check(e);
    }
  }

  /** `get_station(station_id=v)` validates and sends exactly `id=v`. */
  lemma GetStationArguments(id: Value, produce: nat -> Value)
    ensures Validate(GetStationSpec.parameters, {"station_id"}) == None
    ensures WireKwargs(GetStationSpec.parameters, map["station_id" := id], produce) == map["id" := id]
  {
    var params := GetStationSpec.parameters;
    assert params[..0] == [];
    assert ParamName(params[0]) == "station_id";
    assert Expected(params) == {"station_id"} by {
      assert "station_id" in Expected(params);
    }
    assert Required(params) == {"station_id"} by {
      assert "station_id" in Required(params);
    }
  }

  /**
   * `get_station(id=v)`: the wire name is not a caller-facing name, so the
   * call raises `TypeError` naming `id`, sends nothing and changes nothing.
   */
  lemma GetStationRejectsWireName(id: Value, produce: nat -> Value, st: SessionState, credentials: Credentials,
                                  userAgent: string, t: Transport, search: (string, Json) -> Json)
    ensures Outcome(GetStationSpec, map["id" := id], produce, st, credentials, userAgent, t, search)
         == Invocation(Raised(TypeError(Unexpected({"id"}))), st, [])
  {
    var params := GetStationSpec.parameters;
    assert ParamName(params[0]) == "station_id";
    WireNameHiddenByAlias(params, 0);
    assert map["id" := id].Keys == {"id"};
  }

  /** `get_token(station_id=v)` validates and sends `sid=v` and the static default `m=False`; `pt` is left out. */
  lemma GetTokenArguments(id: Value, produce: nat -> Value)
    ensures Validate(GetTokenSpec.parameters, {"station_id"}) == None
    ensures WireKwargs(GetTokenSpec.parameters, map["station_id" := id], produce)
         == map["sid" := id, "m" := BoolVal(false)]
  {
    var params := GetTokenSpec.parameters;
    assert params[..2][..1] == params[..1] && params[..1][..0] == [] && params[..3] == params;
    assert ParamName(params[0]) == "station_id";
    assert Required(params) == {"station_id"} by {
      assert "station_id" in Required(params);
    }
    assert "station_id" in Expected(params);
  }

  /** `get_station(station_id=v)` when the request fails. */
  lemma GetStationFailure(id: Value, produce: nat -> Value, st: SessionState, credentials: Credentials,
                          userAgent: string, t: Transport, search: (string, Json) -> Json)
    requires RtecmStep(st, credentials, userAgent, "getStation", map["id" := id], t).result.Err?
    ensures var e := RtecmStep(st, credentials, userAgent, "getStation", map["id" := id], t).result.error;
            Outcome(GetStationSpec, map["station_id" := id], produce, st, credentials, userAgent, t, search).result
              == if e == HTTPError(404)
                 then StructuredError(map["code" := "UnknownStationID", "error" := "Unknown station " + ToStr(id)])
                 else Raised(e)
  {
    GetStationArguments(id, produce);
    assert map["station_id" := id].Keys == {"station_id"};
    StationLookupFailure(GetStationSpec, "id", map["station_id" := id], produce, st, credentials, userAgent, t, search);
  }

  /** `get_token(station_id=v)` when the request fails. */
  lemma GetTokenFailure(id: Value, produce: nat -> Value, st: SessionState, credentials: Credentials,
                        userAgent: string, t: Transport, search: (string, Json) -> Json)
    requires RtecmStep(st, credentials, userAgent, "getTokenJSON", map["sid" := id, "m" := BoolVal(false)], t).result.Err?
    ensures var e := RtecmStep(st, credentials, userAgent, "getTokenJSON", map["sid" := id, "m" := BoolVal(false)], t).result.error;
            Outcome(GetTokenSpec, map["station_id" := id], produce, st, credentials, userAgent, t, search).result
              == if e == HTTPError(404)
                 then StructuredError(map["code" := "UnknownStationID", "error" := "Unknown station " + ToStr(id)])
                 else Raised(e)
  {
    GetTokenArguments(id, produce);
    assert map["station_id" := id].Keys == {"station_id"};
    StationLookupFailure(GetTokenSpec, "sid", map["station_id" := id], produce, st, credentials, userAgent, t, search);
  }

  lemma Decimal999()
    ensures ToStr(IntVal(999)) == "999"
  {
    assert NatToDecimal(9) == "9";
    assert NatToDecimal(99) == "9" + "9";
    assert NatToDecimal(999) == "99" + "9";
  }

  /** The concrete case: station 999 does not exist. */
  lemma UnknownStation999(produce: nat -> Value, st: SessionState, credentials: Credentials,
                          userAgent: string, t: Transport, search: (string, Json) -> Json)
    requires RtecmStep(st, credentials, userAgent, "getStation", map["id" := IntVal(999)], t).result == Err(HTTPError(404))
    ensures Outcome(GetStationSpec, map["station_id" := IntVal(999)], produce, st, credentials, userAgent, t, search).result
         == StructuredError(map["code" := "UnknownStationID", "error" := "Unknown station 999"])
  {
    GetStationFailure(IntVal(999), produce, st, credentials, userAgent, t, search);
    Decimal999();
    assert "Unknown station " + ToStr(IntVal(999)) == "Unknown station 999";
  }

  /** `get_station` with a server error: the HTTP error propagates unchanged. */
  lemma GetStationServerError(id: Value, produce: nat -> Value, st: SessionState, credentials: Credentials,
                              userAgent: string, t: Transport, search: (string, Json) -> Json)
    requires RtecmStep(st, credentials, userAgent, "getStation", map["id" := id], t).result == Err(HTTPError(500))
    ensures Outcome(GetStationSpec, map["station_id" := id], produce, st, credentials, userAgent, t, search).result
         == Raised(HTTPError(500))
  {
    GetStationFailure(id, produce, st, credentials, userAgent, t, search);
  }

  /**
   * The handler inspects only the exception, so a login rejected with 404
   * on a fresh connection is reported as an unknown station too.
   */
  lemma LoginNotFoundReadsAsUnknownStation(id: Value, produce: nat -> Value, credentials: Credentials,
                                           userAgent: string, t: Transport, search: (string, Json) -> Json)
    requires t.login.status == 404
    ensures var out := Outcome(GetStationSpec, map["station_id" := id], produce, SessionState(None, None), credentials, userAgent, t, search);
            && out.result == StructuredError(map["code" := "UnknownStationID", "error" := "Unknown station " + ToStr(id)])
            && out.sent == [Post(LoginUrl, userAgent, LoginBody(credentials))]
  {
    var st := SessionState(None, None);
    assert RtecmStep(st, credentials, userAgent, "getStation", map["id" := id], t).result == Err(HTTPError(404));
    GetStationArguments(id, produce);
    assert map["station_id" := id].Keys == {"station_id"};
    GetStationFailure(id, produce, st, credentials, userAgent, t, search);
  }
}
