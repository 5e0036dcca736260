/**
 * The connection to brain.fm: the lazily established visitor identifier
 * (`svu`), the lazily fetched per-operation keys, and the `rtecm` request
 * that carries every operation. HTTP is an oracle: each call is handed the
 * replies the service would give (a Transport); the requests sent are
 * recorded in a ghost log.
 */
module Session {
  import opened Values
  import opened Exceptions

  const Version := "0.2.2"
  const DefaultUserAgent := "github.com/numberoverzero/brainfm v" + Version
  const LegacyVersion := "0.1.1"
  const LegacyDefaultUserAgent := "github.com/numberoverzero/brainfm v" + LegacyVersion
  /** A browser user agent, for when the service starts filtering on it. */
  const Browser := "Mozilla/5.0 (Windows NT 6.1) AppleWebKit/537.36 (KHTML, like Gecko) Chrome/41.0.2228.0 Safari/537.36"

  const LoginUrl := "https://www.brain.fm/login"
  const KeysUrl := "https://www.brain.fm/post/rtecmg"
  const RtecmUrl := "https://www.brain.fm/post/rtecm"

  /** A reply of the service: its status code and its body, when that decodes as JSON of the expected shape. */
  datatype Reply<T> = Reply(status: int, body: Option<T>)

  /** The replies one operation call would receive, if it sends the request. */
  datatype Transport = Transport(login: Reply<string>, keys: Reply<map<string, string>>, rtecm: Reply<Json>)

  datatype Credentials = Credentials(email: string, password: string)

  datatype Body =
    | LoginBody(credentials: Credentials)    // json={"email": ..., "pass": ...}
    | KeysBody(svu: string)                  // json={"svu": ...}
    | FormBody(payload: map<string, Value>)  // data=payload

  /** One POST, with its User-Agent header. */
  datatype Request = Post(url: string, userAgent: string, body: Body)

  /** `r.raise_for_status()` then `r.json()`. */
  function Receive<T>(reply: Reply<T>): Result<T, Exception> {
    if 400 <= reply.status < 600 then Err(HTTPError(reply.status))
    else match reply.body
      case None => Err(ValueError)
      case Some(v) => Ok(v)
  }

  /**
   * The form payload: `svu` and `cst`, then every wire argument, which wins
   * over either of the two when it uses the same key.
   */
  function Payload(svu: string, cst: string, wire: map<string, Value>): (payload: map<string, Value>)
    ensures payload.Keys == {"svu", "cst"} + wire.Keys
    ensures forall k :: k in wire ==> payload[k] == wire[k]
    ensures "svu" !in wire ==> payload["svu"] == StrVal(svu)
    ensures "cst" !in wire ==> payload["cst"] == StrVal(cst)
  {
    map["svu" := StrVal(svu), "cst" := StrVal(cst)] + wire
  }

  /** `_svu` and `_operation_keys`: None until fetched. */
  datatype SessionState = SessionState(svu: Option<string>, keys: Option<map<string, string>>)

  /** What one access did: the state after it, its value or exception, and the requests it sent. */
  datatype Step<T> = Step(state: SessionState, result: Result<T, Exception>, sent: seq<Request>)

  /** The `svu` property: the cached identifier, or a login whose reply sets it. */
  function SvuStep(st: SessionState, credentials: Credentials, userAgent: string, login: Reply<string>): Step<string> {
    match st.svu
    case Some(v) => Step(st, Ok(v), [])
    case None =>
      var request := Post(LoginUrl, userAgent, LoginBody(credentials));
      match Receive(login)
      case Err(e) => Step(st, Err(e), [request])
      case Ok(v) => Step(st.(svu := Some(v)), Ok(v), [request])
  }

  /** The `operation_keys` property: the cached map, or a fetch made with the identifier. */
  function KeysStep(st: SessionState, credentials: Credentials, userAgent: string, t: Transport): Step<map<string, string>> {
    match st.keys
    case Some(k) => Step(st, Ok(k), [])
    case None =>
      var first := SvuStep(st, credentials, userAgent, t.login);
      match first.result
      case Err(e) => Step(first.state, Err(e), first.sent)
      case Ok(svu) =>
        var request := Post(KeysUrl, userAgent, KeysBody(svu));
        match Receive(t.keys)
        case Err(e) => Step(first.state, Err(e), first.sent + [request])
        case Ok(k) => Step(first.state.(keys := Some(k)), Ok(k), first.sent + [request])
  }

  /**
   * `_rtecm(spec, wire_kwargs)`: evaluates `svu`, then `operation_keys`,
   * looks up the operation's key (KeyError when the service sent none),
   * and posts `Payload(svu, svu + key, wire)`.
   */
  function RtecmStep(st: SessionState, credentials: Credentials, userAgent: string,
                     wireName: string, wire: map<string, Value>, t: Transport): Step<Json>
  {
    var first := SvuStep(st, credentials, userAgent, t.login);
    match first.result
    case Err(e) => Step(first.state, Err(e), first.sent)
    case Ok(svu) =>
      var keys := KeysStep(first.state, credentials, userAgent, t);
      match keys.result
      case Err(e) => Step(keys.state, Err(e), first.sent + keys.sent)
      case Ok(k) =>
        if wireName !in k then Step(keys.state, Err(KeyError(wireName)), first.sent + keys.sent)
        else
          var request := Post(RtecmUrl, userAgent, FormBody(Payload(svu, svu + k[wireName], wire)));
          Step(keys.state, Receive(t.rtecm), first.sent + keys.sent + [request])
  }

  predicate IsLogin(r: Request) {
    r.body.LoginBody?
  }

  predicate IsKeyFetch(r: Request) {
    r.body.KeysBody?
  }

  /** How many requests of the log satisfy `kind`. */
  function Count(s: seq<Request>, kind: Request -> bool): nat
    decreases |s|
  {
    if s == [] then 0 else (if kind(s[0]) then 1 else 0) + Count(s[1..], kind)
  }

  lemma {:induction false} CountAppend(a: seq<Request>, b: seq<Request>, kind: Request -> bool)
    ensures Count(a + b, kind) == Count(a, kind) + Count(b, kind)
    decreases |a|
  {
    if a != [] {
      assert (a + b)[0] == a[0] && (a + b)[1..] == a[1..] + b;
      CountAppend(a[1..], b, kind);
    } else {
      assert a + b == b;
    }
  }

  /**
   * One `_rtecm` call logs in exactly when no identifier was cached, and
   * fetches the keys exactly when none were cached and the identifier was
   * obtained; a fetched value never changes, and a failed fetch leaves its
   * field unset.
   */
  lemma {:induction false} RtecmFetchesLazily(st: SessionState, credentials: Credentials, userAgent: string,
                                             wireName: string, wire: map<string, Value>, t: Transport)
    requires st.svu.None? ==> st.keys.None?
    ensures var step := RtecmStep(st, credentials, userAgent, wireName, wire, t);
            var loggedIn := st.svu.Some? || Receive(t.login).Ok?;
            && Count(step.sent, IsLogin) == (if st.svu.None? then 1 else 0)
            && Count(step.sent, IsKeyFetch) == (if st.keys.None? && loggedIn then 1 else 0)
            && (st.svu.Some? ==> step.state.svu == st.svu)
            && (st.keys.Some? ==> step.state.keys == st.keys)
            && (st.svu.None? && Receive(t.login).Err? ==> step.state == st)
            && (st.keys.None? && loggedIn && Receive(t.keys).Err? ==> step.state.keys.None?)
            && (step.state.svu.None? ==> step.state.keys.None?)
  {
    var step := RtecmStep(st, credentials, userAgent, wireName, wire, t);
    var first := SvuStep(st, credentials, userAgent, t.login);
    if first.result.Ok? {
      var keys := KeysStep(first.state, credentials, userAgent, t);
      assert SvuStep(first.state, credentials, userAgent, t.login).sent == [];
      if keys.state.keys.Some? {
        var k := keys.result.value;
        if wireName in k {
          var last := [Post(RtecmUrl, userAgent, FormBody(Payload(first.result.value, first.result.value + k[wireName], wire)))];
          assert step.sent == first.sent + keys.sent + last;
          CountAppend(first.sent + keys.sent, last, IsLogin);
          CountAppend(first.sent + keys.sent, last, IsKeyFetch);
        }
      }
      CountAppend(first.sent, keys.sent, IsLogin);
      CountAppend(first.sent, keys.sent, IsKeyFetch);
      if st.keys.None? {
        var first' := SvuStep(first.state, credentials, userAgent, t.login);
        assert keys.sent == first'.sent + [Post(KeysUrl, userAgent, KeysBody(first.result.value))] || keys.sent == first'.sent;
        CountAppend(first'.sent, [Post(KeysUrl, userAgent, KeysBody(first.result.value))], IsLogin);
        CountAppend(first'.sent, [Post(KeysUrl, userAgent, KeysBody(first.result.value))], IsKeyFetch);
      }
    }
  }

  /**
   * The `svu` property logs in only while no identifier is cached; a
   * successful login caches its identifier, which later reads return
   * without a request, and a failed one leaves the field unset.
   */
  lemma SvuFetchesOnce(st: SessionState, credentials: Credentials, userAgent: string, login: Reply<string>)
    ensures var step := SvuStep(st, credentials, userAgent, login);
            && (st.svu.Some? ==> step == Step(st, Ok(st.svu.value), []))
            && (st.svu.None? ==> step.sent == [Post(LoginUrl, userAgent, LoginBody(credentials))])
            && (st.svu.None? && Receive(login).Ok? ==>
                  step.state == st.(svu := Some(Receive(login).value)) && step.result == Receive(login))
            && (st.svu.None? && Receive(login).Err? ==> step.state == st && step.result == Receive(login))
            && (step.result.Ok? ==> SvuStep(step.state, credentials, userAgent, login) == Step(step.state, step.result, []))
  {
  }

  /**
   * The `operation_keys` property fetches only while no map is cached,
   * reads `svu` first (a failed login stops it before the fetch), and
   * sends the identifier it read; a successful fetch is cached, a failed
   * one leaves the field unset.
   */
  lemma KeysFetchesOnce(st: SessionState, credentials: Credentials, userAgent: string, t: Transport)
    ensures var step := KeysStep(st, credentials, userAgent, t);
            var first := SvuStep(st, credentials, userAgent, t.login);
            && (st.keys.Some? ==> step == Step(st, Ok(st.keys.value), []))
            && (st.keys.None? && first.result.Err? ==> step == Step(first.state, Err(first.result.error), first.sent))
            && (st.keys.None? && first.result.Ok? ==>
                  && step.sent == first.sent + [Post(KeysUrl, userAgent, KeysBody(first.result.value))]
                  && step.result == Receive(t.keys)
                  && step.state.svu == first.state.svu
                  && step.state.keys == (if Receive(t.keys).Ok? then Some(Receive(t.keys).value) else None))
            && (step.result.Ok? ==> KeysStep(step.state, credentials, userAgent, t) == Step(step.state, step.result, []))
  {
  }

  /**
   * After a call whose operation request went out, whatever its reply, the
   * next call on the same connection sends only its own request.
   */
  lemma NextCallSendsOnlyItsRequest(st: SessionState, credentials: Credentials, userAgent: string,
                                    wireName: string, wire: map<string, Value>, t: Transport,
                                    nextName: string, nextWire: map<string, Value>, next: Transport)
    requires var sent := RtecmStep(st, credentials, userAgent, wireName, wire, t).sent;
             |sent| > 0 && sent[|sent| - 1].url == RtecmUrl
    ensures var after := RtecmStep(st, credentials, userAgent, wireName, wire, t).state;
            var step := RtecmStep(after, credentials, userAgent, nextName, nextWire, next);
            && step.state == after
            && |step.sent| <= 1
            && (forall i :: 0 <= i < |step.sent| ==> step.sent[i].url == RtecmUrl)
  {
  }

  /** One operation request of a sequence of calls on a connection. */
  datatype Call = Call(wireName: string, wire: map<string, Value>, t: Transport)

  /** What a session ends in after several calls, and every request they sent. */
  datatype Trace = Trace(state: SessionState, sent: seq<Request>)

  /** Several `_rtecm` calls in order on one connection. */
  function Run(st: SessionState, credentials: Credentials, userAgent: string, calls: seq<Call>): Trace
    decreases |calls|
  {
    if calls == [] then Trace(st, [])
    else
      var step := RtecmStep(st, credentials, userAgent, calls[0].wireName, calls[0].wire, calls[0].t);
      var rest := Run(step.state, credentials, userAgent, calls[1..]);
      Trace(rest.state, step.sent + rest.sent)
  }

  /**
   * Across any number of calls there is at most one login: none once an
   * identifier is cached, and exactly one when the first call's login
   * succeeds on a fresh connection; the identifier then stays the same.
   */
  lemma {:induction false} LoginAtMostOnce(st: SessionState, credentials: Credentials, userAgent: string, calls: seq<Call>)
    requires st.svu.None? ==> st.keys.None?
    requires calls != [] && st.svu.None? ==> Receive(calls[0].t.login).Ok?
    ensures var trace := Run(st, credentials, userAgent, calls);
            && Count(trace.sent, IsLogin) == (if st.svu.None? && calls != [] then 1 else 0)
            && (st.svu.Some? ==> trace.state.svu == st.svu)
            && (calls != [] ==> trace.state.svu.Some?)
    decreases |calls|
  {
    if calls != [] {
      var c := calls[0];
      var step := RtecmStep(st, credentials, userAgent, c.wireName, c.wire, c.t);
      RtecmFetchesLazily(st, credentials, userAgent, c.wireName, c.wire, c.t);
      assert step.state.svu.Some? by {
        if st.svu.None? {
          var first := SvuStep(st, credentials, userAgent, c.t.login);
          assert first.state.svu.Some?;
          KeysFetchesOnce(first.state, credentials, userAgent, c.t);
        }
      }
      LoginAtMostOnce(step.state, credentials, userAgent, calls[1..]);
      CountAppend(step.sent, Run(step.state, credentials, userAgent, calls[1..]).sent, IsLogin);
    }
  }

  /**
   * Across any number of calls the keys are fetched at most once: never
   * once they are cached, and exactly once when the first call on a
   * connection without keys logs in and fetches successfully; the fetched
   * map then stays the same.
   */
  lemma {:induction false} KeysAtMostOnce(st: SessionState, credentials: Credentials, userAgent: string, calls: seq<Call>)
    requires st.svu.None? ==> st.keys.None?
    requires calls != [] && st.keys.None? ==>
               (st.svu.Some? || Receive(calls[0].t.login).Ok?) && Receive(calls[0].t.keys).Ok?
    ensures var trace := Run(st, credentials, userAgent, calls);
            && Count(trace.sent, IsKeyFetch) == (if st.keys.None? && calls != [] then 1 else 0)
            && (st.keys.Some? ==> trace.state.keys == st.keys)
            && (calls != [] ==> trace.state.keys.Some?)
    decreases |calls|
  {
    if calls != [] {
      var c := calls[0];
      var step := RtecmStep(st, credentials, userAgent, c.wireName, c.wire, c.t);
      RtecmFetchesLazily(st, credentials, userAgent, c.wireName, c.wire, c.t);
      assert step.state.keys.Some? by {
        if st.keys.None? {
          var first := SvuStep(st, credentials, userAgent, c.t.login);
          SvuFetchesOnce(st, credentials, userAgent, c.t.login);
          assert first.result.Ok? && first.state.keys.None?;
          KeysFetchesOnce(first.state, credentials, userAgent, c.t);
        }
      }
      KeysAtMostOnce(step.state, credentials, userAgent, calls[1..]);
      CountAppend(step.sent, Run(step.state, credentials, userAgent, calls[1..]).sent, IsKeyFetch);
    }
  }

  /**
   * A call whose login fails sends only the login and leaves the session
   * as it was, so a run's counts are those of the run from the first
   * successful login on.
   */
  lemma FailedLoginChangesNothing(st: SessionState, credentials: Credentials, userAgent: string, calls: seq<Call>)
    requires calls != [] && st.svu.None? && Receive(calls[0].t.login).Err?
    ensures var rest := Run(st, credentials, userAgent, calls[1..]);
            Run(st, credentials, userAgent, calls) == Trace(rest.state, [Post(LoginUrl, userAgent, LoginBody(credentials))] + rest.sent)
  {
  }

  /** Once both fields are set, an operation sends only its own request and changes nothing. */
  lemma CachedSessionSendsOnlyTheCall(st: SessionState, credentials: Credentials, userAgent: string,
                                       wireName: string, wire: map<string, Value>, t: Transport)
    requires st.svu.Some? && st.keys.Some?
    ensures var step := RtecmStep(st, credentials, userAgent, wireName, wire, t);
            && step.state == st
            && step.sent == if wireName in st.keys.value
                            then [Post(RtecmUrl, userAgent, FormBody(Payload(st.svu.value, st.svu.value + st.keys.value[wireName], wire)))]
                            else []
  {
  }

  /**
   * The request an operation sends carries `svu` and `cst == svu + key`
   * for the connection's identifier and the operation's key (unless a wire
   * argument overrides them), and the key fetch used that same identifier.
   */
  lemma {:induction false} RtecmPayload(st: SessionState, credentials: Credentials, userAgent: string,
                                        wireName: string, wire: map<string, Value>, t: Transport)
    ensures var step := RtecmStep(st, credentials, userAgent, wireName, wire, t);
            forall i :: 0 <= i < |step.sent| ==>
              && (step.sent[i].body.KeysBody? ==> step.state.svu == Some(step.sent[i].body.svu))
              && (step.sent[i].body.FormBody? ==>
                    && i == |step.sent| - 1
                    && step.state.svu.Some? && step.state.keys.Some? && wireName in step.state.keys.value
                    && var svu := step.state.svu.value;
                       step.sent[i].body.payload == Payload(svu, svu + step.state.keys.value[wireName], wire))
  {
    var step := RtecmStep(st, credentials, userAgent, wireName, wire, t);
    var first := SvuStep(st, credentials, userAgent, t.login);
    if first.result.Ok? {
      var keys := KeysStep(first.state, credentials, userAgent, t);
      assert SvuStep(first.state, credentials, userAgent, t.login).sent == [];
      var prefix := first.sent + keys.sent;
      assert forall i :: 0 <= i < |prefix| ==> prefix[i] == step.sent[i];
    }
  }

  class Connection {
    const credentials: Credentials
    /** `user_agent`, a public attribute callers may reassign (to Browser, say). */
    var userAgent: string
    /** `_svu` */
    var svu: Option<string>
    /** `_operation_keys` */
    var operationKeys: Option<map<string, string>>
    /** Every request this connection has sent, in order. */
    ghost var sent: seq<Request>

    function State(): SessionState
      reads this
    {
      SessionState(svu, operationKeys)
    }

    /** Keys are only fetched after the identifier, and every key fetch used the identifier the connection holds. */
    ghost predicate Valid()
      reads this
    {
      && (svu.None? ==> operationKeys.None?)
      && (forall i :: 0 <= i < |sent| && sent[i].body.KeysBody? ==> svu == Some(sent[i].body.svu))
    }

    /** `Connection(email, password)` of the package. */
    constructor (email: string, password: string)
      ensures Valid()
      ensures credentials == Credentials(email, password) && userAgent == DefaultUserAgent
      ensures svu == None && operationKeys == None && sent == []
    {
      credentials := Credentials(email, password);
      userAgent := DefaultUserAgent;
      svu := None;
      operationKeys := None;
      sent := [];
    }

    /** `Connection(email, password)` of the single-file version, which differs only in its default user agent. */
    constructor Legacy(email: string, password: string)
      ensures Valid()
      ensures credentials == Credentials(email, password) && userAgent == LegacyDefaultUserAgent
      ensures svu == None && operationKeys == None && sent == []
    {
      credentials := Credentials(email, password);
      userAgent := LegacyDefaultUserAgent;
      svu := None;
      operationKeys := None;
      sent := [];
    }

    method Svu(login: Reply<string>) returns (r: Result<string, Exception>)
      requires Valid()
      modifies this`svu, this`sent
      ensures Valid()
      ensures var step := SvuStep(old(State()), credentials, userAgent, login);
              State() == step.state && r == step.result && sent == old(sent) + step.sent
    {
      if svu.None? {
        sent := sent + [Post(LoginUrl, userAgent, LoginBody(credentials))];
        var got := Receive(login);
        if got.Err? {
          return Err(got.error);
        }
        svu := Some(got.value);
      }
      r := Ok(svu.value);
    }

    method OperationKeys(t: Transport) returns (r: Result<map<string, string>, Exception>)
      requires Valid()
      modifies this`svu, this`operationKeys, this`sent
      ensures Valid()
      ensures var step := KeysStep(old(State()), credentials, userAgent, t);
              State() == step.state && r == step.result && sent == old(sent) + step.sent
    {
      if operationKeys.None? {
        var identity := Svu(t.login);
        if identity.Err? {
          return Err(identity.error);
        }
        sent := sent + [Post(KeysUrl, userAgent, KeysBody(identity.value))];
        var got := Receive(t.keys);
        if got.Err? {
          return Err(got.error);
        }
        operationKeys := Some(got.value);
      }
      r := Ok(operationKeys.value);
    }

    method Rtecm(wireName: string, wire: map<string, Value>, t: Transport) returns (r: Result<Json, Exception>)
      requires Valid()
      modifies this`svu, this`operationKeys, this`sent
      ensures Valid()
      ensures var step := RtecmStep(old(State()), credentials, userAgent, wireName, wire, t);
              State() == step.state && r == step.result && sent == old(sent) + step.sent
    {
      var identity := Svu(t.login);
      if identity.Err? {
        return Err(identity.error);
      }
      var again := Svu(t.login);
      var keys := OperationKeys(t);
      if keys.Err? {
        return Err(keys.error);
      }
      if wireName !in keys.value {
        return Err(KeyError(wireName));
      }
      var payload := Payload(identity.value, again.value + keys.value[wireName], wire);
      sent := sent + [Post(RtecmUrl, userAgent, FormBody(payload))];
      r := Receive(t.rtecm);
    }
  }
}
