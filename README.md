# brainfm operation-mapping layer in Dafny

This project models the layer of the brain.fm client that turns a Python
method call such as `connection.get_station(station_id=7)` into one request
to the service. The model covers both versions of the client: the package
`brainfm/__init__.py` (version 0.2.2) and the older single file
`brainfm.py` (version 0.1.1).

One call goes through these steps:

1. **Validation.** The caller's keyword names are checked against the
   operation's parameter list. Undeclared names are rejected first, then
   missing required names. Both failures are a `TypeError` naming the whole
   offending set, and no request is sent.
2. **Renaming.** Each caller-facing name (`param_name`: the alias, else the
   wire name) is mapped to its wire name. A parameter that was not supplied
   gets its static default, or the value its callable default returns on
   this call.
3. **The request.** `_rtecm` reads the lazily cached visitor identifier
   `svu`, logging in if there is none. It then reads the lazily cached
   per-operation keys, fetching them with that identifier if there are none.
   Finally it posts `svu`, `cst = svu + key` and the wire arguments, where a
   wire argument wins over `svu`/`cst`.
4. **Exceptions.** In the package only, an exception from the request is
   matched against the operation's table. The table is a list of checks
   built by `on_exception`, each with an error prototype. The first check
   that holds decides the result: its prototype is rendered by formatting
   each template with the wire arguments (`render_template`). When no check
   holds, the exception is re-raised. The single-file version re-raises
   every exception.
5. **The response.** A successful reply is projected by the operation's
   JMESPath expression. An operation without one returns `None`.

Modules:

- `Values`:
  - the parameter values (int, str, bool);
  - decoded JSON;
  - `str()` of a value, with decimal rendering of integers and its inverse.
- `Exceptions`:
  - the exceptions the layer meets;
  - the class hierarchy `isinstance` walks;
  - `on_exception`.
- `Params`:
  - parameter specifications and `param_name`;
  - validation;
  - the construction of `wire_kwargs`, both as a specification function and as the loop of the source.
- `Templates`:
  - the part of `str.format` around the error prototypes: `{name}`, which is all the prototypes use, plus the `{{` and `}}` escapes and the `KeyError`, `IndexError` and `ValueError` cases of a malformed or unmatched template;
  - an independent parser of a template's field names;
  - `render_template`, as a specification function and as the loop of the source.
- `Session`:
  - the `Connection` class with its two lazily filled fields and a ghost log of the requests it sent;
  - the pure step functions its methods are proved against;
  - the payload.
  - HTTP is an oracle: a `Transport` holds the reply each of the three endpoints would give. `Receive` models `raise_for_status()` followed by `r.json()`.
- `Client`: the package's call pipeline, as the function `Outcome` and the method `Invoke`, and the first-match exception loop.
- `Catalogue`: the package's `operation_map`, its invariants, and the behaviour of the station lookups on 404.
- `Legacy`:
  - the single-file catalogue and pipeline;
  - a proof that the single-file pipeline is the package's with an empty exception table;
  - a proof that the package kept every legacy parameter contract.

The two versions share their `Connection` code: the `svu`, `operation_keys` and `_rtecm` bodies are the same text in both files. It is modelled once, with one constructor per version, because the default user agent differs. `param_name`, the validation and the renaming are also the same text in both versions (`brainfm.py:110-141`). `Params` models them once, and `Legacy.Invoke` uses them.

A callable default (`Dynamic`) is not called by the model. Its value for one call is `produce(i)`, where `i` is the parameter's position, and `produce` is an argument of the call. This keeps the point that it is evaluated anew on each call.

## Model

| member | source | states |
|---|---|---|
| `Values.NatToDecimal` | brainfm/__init__.py:114 | `str(n)` of a natural number is a non-empty string of digits, with a leading `0` only for zero |
| `Values.DecimalRoundTrip` | brainfm/__init__.py:114 | reading the decimal image of `n` back gives `n` |
| `Exceptions.Mro` | brainfm/__init__.py:105 | the class lookup order starts at the exception's own class and ends at `Exception` |
| `Exceptions.MroFollowsBases` | brainfm/__init__.py:105 | the lookup order is the chain of direct base classes (`HTTPError` → `RequestException` → `OSError` → `Exception`) |
| `Exceptions.IsInstance` | brainfm/__init__.py:105 | definition of `isinstance(e, cls)` as membership in the lookup order; properties in `Exceptions.AllAreExceptions`, `Exceptions.OnlyHttpErrorsAreHttpErrors` and `Exceptions.InstanceOfBase` |
| `Exceptions.InstanceOfBase` | brainfm/__init__.py:105 | an instance of a class is an instance of its direct base class |
| `Exceptions.OnException` | brainfm/__init__.py:100-107 | definition of `on_exception`; properties in `Exceptions.OnExceptionNarrows` and `Exceptions.OnHttpStatusMatchesExactly` |
| `Exceptions.OnExceptionNarrows` | brainfm/__init__.py:100-107 | an extra condition narrows the entry to exactly the matching exceptions that satisfy it; an entry for a class also holds for its base class; an entry for `Exception` with no condition matches everything |
| `Exceptions.StatusIs` | brainfm/__init__.py:253 | definition of the status lambda; property in `Exceptions.OnHttpStatusMatchesExactly` |
| `Exceptions.OnHttpStatusMatchesExactly` | brainfm/__init__.py:253 | `on_exception(HTTPError, status == code)` matches exactly `HTTPError(code)` |
| `Exceptions.AllAreExceptions` | brainfm/__init__.py:151 | `except Exception` catches every exception the request can raise |
| `Exceptions.OnlyHttpErrorsAreHttpErrors` | brainfm/__init__.py:105 | `isinstance(e, HTTPError)` holds exactly of HTTP errors |
| `Params.ParamName` | brainfm/__init__.py:96-97 | definition of `param_name`; property in `Params.WireNameHiddenByAlias` |
| `Params.WireNameHiddenByAlias` | brainfm/__init__.py:125-131 | a wire name that is no parameter's caller-facing name belongs to an aliased parameter, and passing it raises `TypeError` naming exactly it |
| `Params.Validate` | brainfm/__init__.py:125-135 | no error iff every supplied name is declared and every required name is supplied; an undeclared name takes precedence over a missing one; the error carries exactly the set difference, never empty |
| `Params.OneUndeclaredName` | brainfm/__init__.py:129-131 | one undeclared name among declared ones is reported as exactly that name |
| `Params.OneMissingName` | brainfm/__init__.py:133-135 | supplying every declared name but one required one reports exactly that one |
| `Values.ToStr` | brainfm/__init__.py:114 | definition of `str()` of a parameter value; properties in `Values.NatToDecimal`, `Values.DecimalRoundTrip` and `Templates.FormatField` |
| `Params.WireKwargs` | brainfm/__init__.py:138-146 | the wire arguments use only declared wire names |
| `Params.WireKeys` | brainfm/__init__.py:138-146 | the wire keys are exactly the wire names of the parameters that were supplied or have a default |
| `Params.WireValue` | brainfm/__init__.py:139-146 | under a parameter's wire name is the supplied value when its alias was passed, else its static default, else the value its callable returned on this call |
| `Params.WireAbsent` | brainfm/__init__.py:139-146 | a parameter neither supplied nor defaulted is absent from the wire arguments |
| `Params.RequiredArrive` | brainfm/__init__.py:133-146 | once validation passes, every required wire name is sent |
| `Params.ExactlyRequiredSucceeds` | brainfm/__init__.py:125-146 | supplying exactly the required names passes validation and sends every required wire name |
| `Params.BuildWireKwargs` | brainfm/__init__.py:138-146 | the loop builds exactly the specified wire arguments |
| `Templates.Format` | brainfm/__init__.py:114 | definition of `value.format(**wire_kwargs)`; properties in the `Templates.Format…` lemmas and `Templates.EscapeRoundTrip` |
| `Templates.FormatSucceedsIff` | brainfm/__init__.py:114 | formatting succeeds iff the template is well formed, has no empty field and names only passed keywords |
| `Templates.FormatLiteralPrefix` | brainfm/__init__.py:114 | text without braces is copied unchanged ahead of the rest |
| `Templates.FormatField` | brainfm/__init__.py:114 | `{name}` is replaced by `str()` of the keyword's value, or raises `KeyError(name)` when it was not passed |
| `Templates.FormatLiteral` | brainfm/__init__.py:114 | text without braces formats to itself |
| `Templates.EscapeRoundTrip` | brainfm/__init__.py:114 | doubling every brace gives a template with no fields that formats back to the original text |
| `Templates.Rendered` | brainfm/__init__.py:110-116 | a rendered error has exactly the prototype's keys |
| `Templates.RenderedSucceedsIff` | brainfm/__init__.py:113-114 | rendering succeeds iff every template of the prototype formats |
| `Templates.RenderedValues` | brainfm/__init__.py:113-114 | each key of a rendered error holds its own template formatted with the wire arguments |
| `Templates.RenderedFirstFailure` | brainfm/__init__.py:113-114 | a failed rendering raises the exception of the first template that does not format |
| `Templates.RenderedFailureSticks` | brainfm/__init__.py:113-114 | once a prefix fails, the later templates are never formatted |
| `Templates.RenderedPair` | brainfm/__init__.py:113-115 | a two-key prototype whose templates format renders to both formatted texts |
| `Templates.RenderTemplate` | brainfm/__init__.py:110-116 | the loop returns exactly the specified rendering, stopping at the first failing template |
| `Session.Receive` | brainfm/__init__.py:92-93 | definition of `raise_for_status()` then `r.json()`; properties in `Session.SvuFetchesOnce`, `Session.KeysFetchesOnce`, `Catalogue.GetStationServerError` and `Catalogue.LoginNotFoundReadsAsUnknownStation`, which turns a login status of 404 into the structured error |
| `Session.Payload` | brainfm/__init__.py:82-86 | the payload holds `svu`, `cst` and every wire argument; a wire argument overrides `svu`/`cst` |
| `Session.SvuStep` | brainfm/__init__.py:40-50 | definition of the `svu` property on values; properties in `Session.SvuFetchesOnce` |
| `Session.KeysStep` | brainfm/__init__.py:52-62 | definition of the `operation_keys` property on values; properties in `Session.KeysFetchesOnce` |
| `Session.RtecmStep` | brainfm/__init__.py:64-93 | definition of `_rtecm` on values; properties in `Session.RtecmFetchesLazily`, `Session.RtecmPayload` and the lemmas below |
| `Session.Run` | brainfm/__init__.py:64-93 | definition of several `_rtecm` calls in order; properties in `Session.LoginAtMostOnce` and `Session.KeysAtMostOnce` |
| `Session.SvuFetchesOnce` | brainfm/__init__.py:40-50 | `svu` logs in only while none is cached; a success is cached and later reads send nothing; a failure leaves the field unset |
| `Session.KeysFetchesOnce` | brainfm/__init__.py:52-62 | `operation_keys` fetches only while none are cached, reads `svu` first and sends it; a success is cached, a failure leaves the field unset |
| `Session.RtecmFetchesLazily` | brainfm/__init__.py:64-93 | one call logs in exactly when no identifier was cached, and fetches keys exactly when none were cached and the login succeeded; cached values never change |
| `Session.CachedSessionSendsOnlyTheCall` | brainfm/__init__.py:82-93 | with both fields cached, a call changes nothing and sends only its own request (or nothing, for an unknown operation key) |
| `Session.NextCallSendsOnlyItsRequest` | brainfm/__init__.py:40-93 | after a call whose operation request was sent, whatever its reply, the next call changes nothing and sends at most its own request |
| `Session.LoginAtMostOnce` | brainfm/__init__.py:40-50 | across any sequence of calls there is no login once an identifier is cached, and exactly one when the first call's login succeeds on a fresh connection; the identifier then never changes |
| `Session.KeysAtMostOnce` | brainfm/__init__.py:52-62 | across any sequence of calls the keys are never fetched once cached, and exactly once when the first call on a connection without keys logs in and fetches successfully; the map then never changes |
| `Session.FailedLoginChangesNothing` | brainfm/__init__.py:40-48 | a call whose login fails sends only the login and leaves the session as it was |
| `Session.RtecmPayload` | brainfm/__init__.py:82-91 | the key fetch used the connection's identifier, and the operation request is the last one sent and carries `cst = svu + key` |
| `Session.Connection.constructor` | brainfm/__init__.py:31-38 | a new connection has no identifier, no keys, the package's user agent and has sent nothing |
| `Session.Connection.Legacy` | brainfm.py:171-178 | the single-file connection differs only in its default user agent |
| `Session.Connection.Svu` | brainfm/__init__.py:40-50 | the property updates the connection as its step function says and keeps the connection's invariant |
| `Session.Connection.OperationKeys` | brainfm/__init__.py:52-62 | the property updates the connection as its step function says and keeps the invariant |
| `Session.Connection.Rtecm` | brainfm/__init__.py:64-93 | the request updates the connection as its step function says and keeps the invariant |
| `Client.Handle` | brainfm/__init__.py:151-155 | definition of the exception-table loop; properties in `Client.HandleFirstMatch` and `Client.HandleNoMatch` |
| `Client.Outcome` | brainfm/__init__.py:123-159 | definition of one call of an operation; properties in `Client.ValidationPrecedesRequests` and `Client.OutcomeOfSentCall` |
| `Client.HandleFirstMatch` | brainfm/__init__.py:151-155 | the first handler whose check holds renders the result |
| `Client.HandleNoMatch` | brainfm/__init__.py:151-155 | with no matching check the exception is re-raised unchanged |
| `Client.HandleException` | brainfm/__init__.py:152-155 | the early-return loop computes exactly the first-match result |
| `Client.ValidationPrecedesRequests` | brainfm/__init__.py:125-135 | bad keyword names raise `TypeError` with the offending set, send nothing and leave the session unchanged |
| `Client.OutcomeOfSentCall` | brainfm/__init__.py:148-159 | after validation, a failed request is rendered by the first matching handler or re-raised; a success is projected, or `None` without projection |
| `Client.HandleRendersOrRaises` | brainfm/__init__.py:149-155 | when every prototype renders, a failure becomes a rendered error or the original exception |
| `Client.RenderingNeverRaises` | brainfm/__init__.py:110-155 | for a well-formed operation, rendering an error never raises a formatting exception of its own |
| `Client.Invoke` | brainfm/__init__.py:123-159 | one call returns, and does to the connection, exactly what the pipeline specifies |
| `Catalogue.Lookup` | brainfm/__init__.py:297-299 | an attribute name finds the operation bound under it, and nothing outside the catalogue |
| `Catalogue.Spec` | brainfm/__init__.py:174-295 | definition of `operation_map` through the constants `SetRatingSpec` … `GetTokenSpec`; properties in `Catalogue.CatalogueWellFormed` and `Catalogue.WireNamesDistinct` |
| `Catalogue.CatalogueWellFormed` | brainfm/__init__.py:174-295 | in every entry aliases and wire names are unique, required parameters have no default, and every prototype's templates name only required wire names |
| `Catalogue.SetRatingWellFormed` | brainfm/__init__.py:178-211 | `set_rating` satisfies the catalogue invariants |
| `Catalogue.GetStationsWellFormed` | brainfm/__init__.py:214-221 | `get_stations` satisfies the catalogue invariants |
| `Catalogue.GetStationsByIdWellFormed` | brainfm/__init__.py:224-238 | `get_stations_by_id` satisfies the catalogue invariants |
| `Catalogue.GetStationWellFormed` | brainfm/__init__.py:239-258 | `get_station` satisfies the catalogue invariants |
| `Catalogue.GetTokenWellFormed` | brainfm/__init__.py:259-291 | `get_token` satisfies the catalogue invariants |
| `Catalogue.WireNamesDistinct` | brainfm/__init__.py:174-295 | no two operations share a service-side name |
| `Catalogue.CodeTemplate` | brainfm/__init__.py:255 | the `code` template has no fields and formats to itself |
| `Catalogue.ErrorTemplate` | brainfm/__init__.py:256 | the `error` template names only the station's wire name and formats to `Unknown station <str(id)>` |
| `Catalogue.StationPrototypeFields` | brainfm/__init__.py:254-256 | the station prototype is a dict whose only field is the station's wire name |
| `Catalogue.StationPrototypeRendered` | brainfm/__init__.py:254-256 | the station prototype renders to `{code: UnknownStationID, error: Unknown station <id>}` |
| `Catalogue.StationLookupFailure` | brainfm/__init__.py:149-155 | for a station lookup, a 404 becomes the structured error and every other exception is raised unchanged |
| `Catalogue.GetStationArguments` | brainfm/__init__.py:239-249 | `get_station(station_id=v)` validates and sends exactly `id=v` |
| `Catalogue.GetStationRejectsWireName` | brainfm/__init__.py:239-249 | `get_station(id=v)` raises `TypeError` naming `id`, sends nothing and changes nothing |
| `Catalogue.GetTokenArguments` | brainfm/__init__.py:259-282 | `get_token(station_id=v)` validates and sends `sid=v` and `m=False`, and no `pt` |
| `Catalogue.GetStationFailure` | brainfm/__init__.py:239-258 | a failed `get_station` gives the structured error naming the station on 404, else the exception |
| `Catalogue.GetTokenFailure` | brainfm/__init__.py:259-291 | a failed `get_token` gives the structured error naming the station on 404, else the exception |
| `Catalogue.Decimal999` | brainfm/__init__.py:114 | `str(999)` is `999` |
| `Catalogue.UnknownStation999` | brainfm/__init__.py:252-257 | `get_station(station_id=999)` answered 404 gives `{code: UnknownStationID, error: Unknown station 999}` |
| `Catalogue.GetStationServerError` | brainfm/__init__.py:155 | `get_station` answered 500 raises that `HTTPError` unchanged |
| `Catalogue.LoginNotFoundReadsAsUnknownStation` | brainfm/__init__.py:40-50 | on a fresh connection, a login answered 404 is also reported as an unknown station, after only the login was sent |
| `Legacy.Lift` | brainfm.py:13-107 | definition of a single-file entry in the package's form, with no exceptions; property in `Legacy.OutcomeIsPackageWithoutHandlers` |
| `Legacy.Outcome` | brainfm.py:118-148 | definition of one single-file call; properties in `Legacy.OutcomeIsPackageWithoutHandlers` and `Legacy.ErrorsPropagate` |
| `Legacy.OutcomeIsPackageWithoutHandlers` | brainfm.py:118-148 | the single-file pipeline equals the package pipeline with an empty exception table |
| `Legacy.ErrorsPropagate` | brainfm.py:144-148 | every failure of the request, a 404 included, reaches the caller unchanged; a success is never an error |
| `Legacy.Invoke` | brainfm.py:118-148 | one single-file call returns, and does to the connection, exactly what its pipeline specifies |
| `Legacy.Spec` | brainfm.py:13-107 | definition of the single-file `operation_map`; properties in `Legacy.PackageKeepsContracts` and `Legacy.CatalogueWellFormed` |
| `Legacy.Successor` | brainfm.py:13-107 | each single-file operation is bound in the package under the same attribute name |
| `Legacy.PackageKeepsContracts` | brainfm.py:13-107 | each single-file operation keeps its service-side name, HTTP method and parameter list in the package |
| `Legacy.CatalogueWellFormed` | brainfm.py:13-107 | the single-file catalogue satisfies the same invariants as the package's |
| `Legacy.UnknownStationRaises` | brainfm.py:62-75 | an unknown station raises `HTTPError(404)` in the single file, where the package returns the structured error |

## Left out

- HTTP itself (`requests.post`, headers, JSON and form encoding) is an oracle. Each call is given the reply of each endpoint, and the model records which requests were sent.
- Network failures that raise before any reply (connection errors, timeouts) are not modelled. The transport always replies.
- The body of a 2xx login reply is modelled as either the string identifier or a body that does not decode. Every other shape is treated as not decoding: it raises `ValueError` and nothing is cached. The source differs for each of these shapes:
  - a JSON object without `siteVisitorUUID` raises `KeyError`;
  - a JSON value that is not an object raises `TypeError`;
  - a `null` identifier leaves `_svu` as `None`, so every read of `svu` logs in again, within the same call too. `_rtecm` then sends the key fetch with `{"svu": null}` when no keys are cached, and fails with `TypeError` at `None + key`, or with `KeyError` when the operation has no key;
  - an identifier of another JSON type is cached. The same call then sends the key fetch with it when no keys are cached, and fails at `svu + key` with `TypeError`, or with `KeyError` at the lookup when the operation has no key, unless the two values happen to support `+` (two numbers, two lists). Later calls fail the same way.
- The body of a 2xx key-fetch reply is modelled as either a map from operation names to strings or a body that does not decode. Any other shape is treated as not decoding: `ValueError`, and the field stays unset, so the next call fetches again. The source differs for each of these shapes:
  - `null` is stored as `None`, which the `is None` test reads as unset. The call fails with `TypeError` at `None[name]`, and the next call fetches again;
  - any other value that is not an object (`[]`, a number, a string) is cached and never fetched again. Every call then fails with `TypeError` when the operation's key is looked up;
  - an object with a value that is not a string is cached and never fetched again. A call of that operation fails with `TypeError` at `svu + key`. A call of an operation missing from the object fails with `KeyError`, as in the model, and a call whose key is a string succeeds. With `{"getStation": 5}`, `get_station` raises `TypeError` and every other operation raises `KeyError`.
- JMESPath evaluation is an argument `search` of the call. The model keeps the query text for each operation, but not its meaning.
- `str.format` is modelled only for literal text, `{{`, `}}` and `{name}`. Conversions, format specs, attribute and index fields, and digit-only field names are not modelled. The model raises `ValueError` without CPython's message text.
- The exception hierarchy follows `requests` before 2.27, where a body that is not JSON raises a plain `ValueError`. From 2.27 on it raises `requests.exceptions.JSONDecodeError`, which is also a `RequestException`. No table entry of the catalogue tells the two apart.
- JSON numbers are integers only. Floating point is not modelled.
- The declared `type` of a parameter is kept as data. The source never checks it at call time, so neither does the model.
- Docstring generation in `build_operation` is not modelled. It is cosmetic and relies on reflection (`type.__name__`).
- Binding operations with `setattr` is not modelled. The catalogue is a closed set of operation identifiers with `Lookup` by attribute name.
- The command-line tool, the lazy-import module, packaging and the manual test script are outside this model.
- Concurrent use of one connection is not modelled. The source has no locking.
- `Session.Connection.Svu`, `Session.Connection.OperationKeys` and `Session.Connection.Rtecm` state their effect through the pure step functions `SvuStep`, `KeysStep` and `RtecmStep`. The lazy-fetch properties are lemmas about those functions.
