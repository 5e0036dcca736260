/**
 * The operation pipeline of the package (`build_operation`): validate the
 * keyword names, rename aliases to wire names and fill defaults, send the
 * request, and either project the response or map the exception through
 * the operation's table to a rendered `Error`.
 */
module Client {
  import opened Values
  import opened Exceptions
  import opened Params
  import opened Templates
  import opened Session

  /** One entry of an operation's `exceptions` dict: a check and the prototype its `render_template` fills. */
  datatype Handler = Handler(check: Exception -> bool, prototype: seq<(string, string)>)

  /**
   * An entry of `operation_map`. The response projection is kept as its
   * JMESPath text; evaluating it is the `search` argument of Invoke.
   */
  datatype OperationSpec = OperationSpec(
    name: string,
    httpMethod: string,
    parameters: seq<ParamSpec>,
    response: Option<string>,
    exceptions: seq<Handler>)

  /** What calling an operation gives the caller. */
  datatype CallResult =
    | Returned(value: Json)                         // the projected response
    | NoResponse                                    // the operation has no projection: None
    | StructuredError(fields: map<string, string>)  // an `Error` rendered from a matched exception
    | Raised(error: Exception)                      // the exception leaves the call

  /** `render(error, wire_kwargs)`: the rendered `Error`, or the exception formatting raised. */
  function RenderOutcome(prototype: seq<(string, string)>, wire: map<string, Value>): CallResult {
    match Rendered(prototype, wire)
    case Ok(fields) => StructuredError(fields)
    case Err(e) => Raised(e)
  }

  /** The `except` block: the first handler whose check holds renders; with none, the error is re-raised. */
  function Handle(handlers: seq<Handler>, error: Exception, wire: map<string, Value>): CallResult
    decreases |handlers|
  {
    if handlers == [] then Raised(error)
    else if handlers[0].check(error) then RenderOutcome(handlers[0].prototype, wire)
    else Handle(handlers[1..], error, wire)
  }

  /** Handler `i` is the first whose check holds of the error. */
  predicate IsFirstMatch(handlers: seq<Handler>, error: Exception, i: int) {
    0 <= i < |handlers| && handlers[i].check(error) && forall j :: 0 <= j < i ==> !handlers[j].check(error)
  }

  lemma {:induction false} HandleFirstMatch(handlers: seq<Handler>, error: Exception, wire: map<string, Value>, i: nat)
    requires IsFirstMatch(handlers, error, i)
    ensures Handle(handlers, error, wire) == RenderOutcome(handlers[i].prototype, wire)
    decreases i
  {
    if i > 0 {
      assert !handlers[0].check(error);
      HandleFirstMatch(handlers[1..], error, wire, i - 1);
    }
  }

  lemma {:induction false} HandleNoMatch(handlers: seq<Handler>, error: Exception, wire: map<string, Value>)
    requires forall j :: 0 <= j < |handlers| ==> !handlers[j].check(error)
    ensures Handle(handlers, error, wire) == Raised(error)
    decreases |handlers|
  {
    if handlers != [] {
      HandleNoMatch(handlers[1..], error, wire);
    }
  }

  /** The `for check, render in spec["exceptions"].items()` loop. */
  method HandleException(handlers: seq<Handler>, error: Exception, wire: map<string, Value>) returns (r: CallResult)
    ensures r == Handle(handlers, error, wire)
  {
    for i := 0 to |handlers|
      invariant Handle(handlers[i..], error, wire) == Handle(handlers, error, wire)
    {
      assert handlers[i..][1..] == handlers[i + 1..];
      if handlers[i].check(error) {
        var rendered := RenderTemplate(handlers[i].prototype, wire);
        r := match rendered
          case Ok(fields) => StructuredError(fields)
          case Err(e) => Raised(e);
        return;
      }
    }
    r := Raised(error);
  }

  /** The result of one call, and what it did to the connection. */
  datatype Invocation = Invocation(result: CallResult, state: SessionState, sent: seq<Request>)

  /**
   * One call of the operation `spec` with keyword arguments `kwargs`: the
   * specification Invoke is proved against. `produce(i)` is what the
   * callable default of parameter `i` returns on this call; `search`
   * evaluates a JMESPath expression.
   */
  function Outcome(spec: OperationSpec, kwargs: map<string, Value>, produce: nat -> Value,
                   st: SessionState, credentials: Credentials, userAgent: string, t: Transport,
                   search: (string, Json) -> Json): Invocation
  {
    match Validate(spec.parameters, kwargs.Keys)
    case Some(reason) => Invocation(Raised(TypeError(reason)), st, [])
    case None =>
      var wire := WireKwargs(spec.parameters, kwargs, produce);
      var step := RtecmStep(st, credentials, userAgent, spec.name, wire, t);
      var result := match step.result
        case Err(e) => Handle(spec.exceptions, e, wire)
        case Ok(json) =>
          match spec.response
          case None => NoResponse
          case Some(query) => Returned(search(query, json));
      Invocation(result, step.state, step.sent)
  }

  /** A call with bad keyword names raises TypeError, sends nothing and leaves the session as it was. */
  lemma ValidationPrecedesRequests(spec: OperationSpec, kwargs: map<string, Value>, produce: nat -> Value,
                                   st: SessionState, credentials: Credentials, userAgent: string, t: Transport,
                                   search: (string, Json) -> Json)
    requires !(kwargs.Keys <= Expected(spec.parameters)) || !(Required(spec.parameters) <= kwargs.Keys)
    ensures var out := Outcome(spec, kwargs, produce, st, credentials, userAgent, t, search);
            && out.sent == [] && out.state == st
            && (!(kwargs.Keys <= Expected(spec.parameters)) ==>
                  out.result == Raised(TypeError(Unexpected(kwargs.Keys - Expected(spec.parameters)))))
            && (kwargs.Keys <= Expected(spec.parameters) ==>
                  out.result == Raised(TypeError(Missing(Required(spec.parameters) - kwargs.Keys))))
  {
  }

  /**
   * When the request fails, the outcome is decided by the first handler
   * whose check holds, and the failure is re-raised unchanged when none
   * does; when it succeeds, an operation without projection returns None.
   */
  lemma {:induction false} OutcomeOfSentCall(spec: OperationSpec, kwargs: map<string, Value>, produce: nat -> Value,
                                             st: SessionState, credentials: Credentials, userAgent: string, t: Transport,
                                             search: (string, Json) -> Json)
    requires Validate(spec.parameters, kwargs.Keys).None?
    ensures var wire := WireKwargs(spec.parameters, kwargs, produce);
            var step := RtecmStep(st, credentials, userAgent, spec.name, wire, t);
            var out := Outcome(spec, kwargs, produce, st, credentials, userAgent, t, search);
            && out.state == step.state && out.sent == step.sent
            && (step.result.Err? && (forall j :: 0 <= j < |spec.exceptions| ==> !spec.exceptions[j].check(step.result.error)) ==>
                  out.result == Raised(step.result.error))
            && (forall i :: step.result.Err? && IsFirstMatch(spec.exceptions, step.result.error, i) ==>
                  out.result == RenderOutcome(spec.exceptions[i].prototype, wire))
            && (step.result.Ok? && spec.response.None? ==> out.result == NoResponse)
            && (step.result.Ok? && spec.response.Some? ==> out.result == Returned(search(spec.response.value, step.result.value)))
  {
    var wire := WireKwargs(spec.parameters, kwargs, produce);
    var step := RtecmStep(st, credentials, userAgent, spec.name, wire, t);
    if step.result.Err? {
      var e := step.result.error;
      if forall j :: 0 <= j < |spec.exceptions| ==> !spec.exceptions[j].check(e) {
        HandleNoMatch(spec.exceptions, e, wire);
      }
      forall i | IsFirstMatch(spec.exceptions, e, i)
        ensures Handle(spec.exceptions, e, wire) == RenderOutcome(spec.exceptions[i].prototype, wire)
      {
        HandleFirstMatch(spec.exceptions, e, wire, i);
      }
    }
  }

  /**
   * The catalogue's invariants for one operation: caller-facing names and
   * wire names are unique, required parameters have no default, and every
   * error prototype is a dict whose templates are well formed and name only
   * wire names of required parameters.
   */
  ghost predicate WellFormed(spec: OperationSpec) {
    && AliasesUnique(spec.parameters)
    && WireNamesUnique(spec.parameters)
    && NoRequiredDefault(spec.parameters)
    && forall h :: 0 <= h < |spec.exceptions| ==>
         var prototype := spec.exceptions[h].prototype;
         && DistinctKeys(prototype)
         && forall i :: 0 <= i < |prototype| ==>
              var fields := Fields(prototype[i].1);
              fields.Some? && "" !in fields.value && fields.value <= RequiredWireNames(spec.parameters)
  }

  /**
   * For a well-formed operation whose arguments validate, rendering never
   * raises: a failed request gives either a rendered `Error` or the
   * request's own exception.
   */
  lemma RenderingNeverRaises(spec: OperationSpec, kwargs: map<string, Value>, produce: nat -> Value, error: Exception)
    requires WellFormed(spec) && Validate(spec.parameters, kwargs.Keys).None?
    ensures var r := Handle(spec.exceptions, error, WireKwargs(spec.parameters, kwargs, produce));
            r.StructuredError? || r == Raised(error)
  {
    var wire := WireKwargs(spec.parameters, kwargs, produce);
    RequiredArrive(spec.parameters, kwargs, produce);
    forall h | 0 <= h < |spec.exceptions|
      ensures Rendered(spec.exceptions[h].prototype, wire).Ok?
    {
      var prototype := spec.exceptions[h].prototype;
      forall i | 0 <= i < |prototype| ensures Format(prototype[i].1, wire).Ok? {
        FormatSucceedsIff(prototype[i].1, wire);
      }
      RenderedSucceedsIff(prototype, wire);
    }
    HandleRendersOrRaises(spec.exceptions, error, wire);
  }

  lemma {:induction false} HandleRendersOrRaises(handlers: seq<Handler>, error: Exception, wire: map<string, Value>)
    requires forall h :: 0 <= h < |handlers| ==> Rendered(handlers[h].prototype, wire).Ok?
    ensures var r := Handle(handlers, error, wire);
            r.StructuredError? || r == Raised(error)
    decreases |handlers|
  {
    if handlers != [] && !handlers[0].check(error) {
      HandleRendersOrRaises(handlers[1..], error, wire);
    }
  }

  /**
   * `getattr(connection, name)(**kwargs)`: one call of an operation on a
   * connection.
   */
  method Invoke(conn: Connection, spec: OperationSpec, kwargs: map<string, Value>, produce: nat -> Value,
                t: Transport, search: (string, Json) -> Json) returns (r: CallResult)
    requires conn.Valid()
    modifies conn`svu, conn`operationKeys, conn`sent
    ensures conn.Valid()
    ensures var out := Outcome(spec, kwargs, produce, old(conn.State()), conn.credentials, conn.userAgent, t, search);
            r == out.result && conn.State() == out.state && conn.sent == old(conn.sent) + out.sent
  {
    var expected := Expected(spec.parameters);
    var required := Required(spec.parameters);
    var actual := kwargs.Keys;
    if actual - expected != {} {
      return Raised(TypeError(Unexpected(actual - expected)));
    }
    if required - actual != {} {
      return Raised(TypeError(Missing(required - actual)));
    }
    var wire := BuildWireKwargs(spec.parameters, kwargs, produce);
    var resp := conn.Rtecm(spec.name, wire, t);
    if resp.Err? {
      r := HandleException(spec.exceptions, resp.error, wire);
      return;
    }
    r := match spec.response
      case None => NoResponse
      case Some(query) => Returned(search(query, resp.value));
  }
}
