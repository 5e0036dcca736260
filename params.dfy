/**
 * Parameter contracts of an operation and the first two steps of every
 * call: validation of the caller's keyword names, and the translation of
 * caller-facing aliases into the wire-level keyword arguments, with static
 * and callable defaults filled in.
 */
module Params {
  import opened Values
  import opened Exceptions

  /**
   * A parameter's `default` entry: absent, a fixed value, or a callable that
   * is invoked anew on every call (its value for one call is supplied by the
   * caller of BuildWireKwargs, see `produce` there).
   */
  datatype Default = NoDefault | Static(value: Value) | Dynamic

  /** One entry of an operation's `parameters` list. */
  datatype ParamSpec = ParamSpec(name: string, alias: Option<string>, required: bool, default: Default, kind: Kind)

  /** `param_name`: the caller-facing name, the alias when there is one, else the wire name. */
  function ParamName(p: ParamSpec): string {
    match p.alias
    case Some(a) => a
    case None => p.name
  }

  /** `expected`: every declared caller-facing name. */
  function Expected(params: seq<ParamSpec>): set<string> {
    set i | 0 <= i < |params| :: ParamName(params[i])
  }

  /** `required`: the caller-facing names of the required parameters. */
  function Required(params: seq<ParamSpec>): set<string> {
    set i | 0 <= i < |params| && params[i].required :: ParamName(params[i])
  }

  function WireNames(params: seq<ParamSpec>): set<string> {
    set i | 0 <= i < |params| :: params[i].name
  }

  function RequiredWireNames(params: seq<ParamSpec>): set<string> {
    set i | 0 <= i < |params| && params[i].required :: params[i].name
  }

  /**
   * Step 0 of an operation: the TypeError it raises, if any. Undeclared
   * names are reported before missing ones, each as the whole offending set.
   */
  function Validate(params: seq<ParamSpec>, supplied: set<string>): (r: Option<ValidationError>)
    ensures r.None? <==> supplied <= Expected(params) && Required(params) <= supplied
    ensures (r.Some? && r.value.Unexpected?) <==> !(supplied <= Expected(params))
    ensures r.Some? && r.value.Unexpected? ==> r.value.names == supplied - Expected(params)
    ensures r.Some? && r.value.Missing? ==> r.value.names == Required(params) - supplied
    ensures r.Some? ==> r.value.names != {}
  {
    var extra := supplied - Expected(params);
    if extra != {} then Some(Unexpected(extra))
    else
      assert supplied <= Expected(params) by {
        forall x | x in supplied ensures x in Expected(params) { assert x !in extra; }
      }
      var missing := Required(params) - supplied;
      assert missing == {} ==> Required(params) <= supplied by {
        forall x | x in Required(params) && missing == {} ensures x in supplied { assert x !in missing; }
      }
      if missing != {} then Some(Missing(missing)) else None
  }

  /** Supplying one undeclared name, with every other name declared, is reported as exactly that name. */
  lemma OneUndeclaredName(params: seq<ParamSpec>, supplied: set<string>, extra: string)
    requires supplied <= Expected(params) && extra !in Expected(params)
    ensures Validate(params, supplied + {extra}) == Some(Unexpected({extra}))
  {
    assert (supplied + {extra}) - Expected(params) == {extra};
  }

  /**
   * An alias hides the wire name: a wire name that is no parameter's
   * caller-facing name belongs to an aliased parameter, and passing it
   * is rejected as undeclared.
   */
  lemma WireNameHiddenByAlias(params: seq<ParamSpec>, i: nat)
    requires i < |params|
    requires forall j :: 0 <= j < |params| ==> ParamName(params[j]) != params[i].name
    ensures params[i].alias.Some? && ParamName(params[i]) in Expected(params)
    ensures Validate(params, {params[i].name}) == Some(Unexpected({params[i].name}))
  {
    assert params[i].name !in Expected(params);
    OneUndeclaredName(params, {}, params[i].name);
    assert {} + {params[i].name} == {params[i].name};
  }

  /** Supplying every declared name but one required one is reported as exactly that name. */
  lemma OneMissingName(params: seq<ParamSpec>, missing: string)
    requires missing in Required(params)
    ensures Validate(params, Expected(params) - {missing}) == Some(Missing({missing}))
  {
    var i :| 0 <= i < |params| && params[i].required && ParamName(params[i]) == missing;
    assert missing in Expected(params);
    assert Required(params) - (Expected(params) - {missing}) == {missing};
  }

  /** The value a parameter contributes when its alias was not supplied; `produce(i)` is what the callable of the parameter at position `i` returns on this call. */
  function DefaultFor(p: ParamSpec, i: nat, produce: nat -> Value): Option<Value> {
    match p.default
    case NoDefault => None
    case Static(v) => Some(v)
    case Dynamic => Some(produce(i))
  }

  /**
   * `wire_kwargs` after the loop over the parameters (in their declared
   * order, a later entry overwriting an earlier one with the same wire name).
   */
  function WireKwargs(params: seq<ParamSpec>, kwargs: map<string, Value>, produce: nat -> Value): (wire: map<string, Value>)
    ensures wire.Keys <= WireNames(params)
    decreases |params|
  {
    if params == [] then map[]
    else
      var n := |params| - 1;
      var acc := WireKwargs(params[..n], kwargs, produce);
      var p := params[n];
      assert WireNames(params[..n]) <= WireNames(params) by {
        forall i | 0 <= i < n ensures params[..n][i].name in WireNames(params) {
          assert params[..n][i] == params[i];
        }
      }
      assert p.name in WireNames(params);
      if ParamName(p) in kwargs then acc[p.name := kwargs[ParamName(p)]]
      else match DefaultFor(p, n, produce)
        case None => acc
        case Some(v) => acc[p.name := v]
  }

  /** The parameter at position `i` puts its wire name into `wire_kwargs`. */
  predicate Contributes(params: seq<ParamSpec>, kwargs: map<string, Value>, i: int)
    requires 0 <= i < |params|
  {
    ParamName(params[i]) in kwargs || !params[i].default.NoDefault?
  }

  /** The keys of `wire_kwargs`: the wire names of the supplied parameters and of the ones with a default. */
  lemma {:induction false} WireKeys(params: seq<ParamSpec>, kwargs: map<string, Value>, produce: nat -> Value)
    ensures WireKwargs(params, kwargs, produce).Keys
         == set i | 0 <= i < |params| && Contributes(params, kwargs, i) :: params[i].name
  {
    if params != [] {
      var n := |params| - 1;
      var prefix := params[..n];
      WireKeys(prefix, kwargs, produce);
      var before := set i | 0 <= i < |prefix| && Contributes(prefix, kwargs, i) :: prefix[i].name;
      var all := set i | 0 <= i < |params| && Contributes(params, kwargs, i) :: params[i].name;
      forall i | 0 <= i < n ensures prefix[i] == params[i] && (Contributes(prefix, kwargs, i) <==> Contributes(params, kwargs, i)) {
      }
      if Contributes(params, kwargs, n) {
        assert all == before + {params[n].name};
      } else {
        assert all == before;
      }
    }
  }

  /**
   * The value under a parameter's wire name, when no later parameter
   * shares that wire name: the supplied value when its alias was passed,
   * else its static default, else what its callable returned on this call.
   */
  lemma {:induction false} WireValue(params: seq<ParamSpec>, kwargs: map<string, Value>, produce: nat -> Value, i: nat)
    requires i < |params|
    requires forall j :: i < j < |params| ==> params[j].name != params[i].name
    ensures var wire := WireKwargs(params, kwargs, produce);
            var p := params[i];
            && (ParamName(p) in kwargs ==> p.name in wire && wire[p.name] == kwargs[ParamName(p)])
            && (ParamName(p) !in kwargs && p.default.Static? ==> p.name in wire && wire[p.name] == p.default.value)
            && (ParamName(p) !in kwargs && p.default.Dynamic? ==> p.name in wire && wire[p.name] == produce(i))
  {
    var n := |params| - 1;
    var prefix := params[..n];
    var before := WireKwargs(prefix, kwargs, produce);
    var wire := WireKwargs(params, kwargs, produce);
    var last := params[n];
    assert wire == if ParamName(last) in kwargs then before[last.name := kwargs[ParamName(last)]]
                   else match DefaultFor(last, n, produce)
                     case None => before
                     case Some(v) => before[last.name := v];
    if i < n {
      assert prefix[i] == params[i];
      assert params[i].name != last.name;
      assert forall j :: i < j < |prefix| ==> prefix[j] == params[j];
      WireValue(prefix, kwargs, produce, i);
      assert params[i].name in wire ==> wire[params[i].name] == before[params[i].name];
    }
  }

  /** A parameter that is neither supplied nor defaulted, and whose wire name no other parameter uses, is absent from `wire_kwargs`. */
  lemma WireAbsent(params: seq<ParamSpec>, kwargs: map<string, Value>, produce: nat -> Value, i: nat)
    requires i < |params|
    requires forall j :: 0 <= j < |params| && j != i ==> params[j].name != params[i].name
    requires ParamName(params[i]) !in kwargs && params[i].default.NoDefault?
    ensures params[i].name !in WireKwargs(params, kwargs, produce)
  {
    WireKeys(params, kwargs, produce);
  }

  /** Once validation passes, every required parameter's wire name is present. */
  lemma RequiredArrive(params: seq<ParamSpec>, kwargs: map<string, Value>, produce: nat -> Value)
    requires Validate(params, kwargs.Keys).None?
    ensures RequiredWireNames(params) <= WireKwargs(params, kwargs, produce).Keys
  {
    WireKeys(params, kwargs, produce);
    forall i | 0 <= i < |params| && params[i].required
      ensures params[i].name in WireKwargs(params, kwargs, produce)
    {
      assert ParamName(params[i]) in Required(params);
      assert Contributes(params, kwargs, i);
    }
  }

  /** Supplying exactly the required names succeeds, and every required wire name is then sent. */
  lemma ExactlyRequiredSucceeds(params: seq<ParamSpec>, kwargs: map<string, Value>, produce: nat -> Value)
    requires kwargs.Keys == Required(params)
    ensures Validate(params, kwargs.Keys) == None
    ensures RequiredWireNames(params) <= WireKwargs(params, kwargs, produce).Keys
  {
    assert Required(params) <= Expected(params);
    RequiredArrive(params, kwargs, produce);
  }

  /** `wire_kwargs[param["name"]] = ...` in a loop over the parameters. */
  method BuildWireKwargs(params: seq<ParamSpec>, kwargs: map<string, Value>, produce: nat -> Value)
    returns (wire: map<string, Value>)
    ensures wire == WireKwargs(params, kwargs, produce)
  {
    wire := map[];
    for i := 0 to |params|
      invariant wire == WireKwargs(params[..i], kwargs, produce)
    {
      assert params[..i + 1][..i] == params[..i];
      var param := params[i];
      if ParamName(param) in kwargs {
        wire := wire[param.name := kwargs[ParamName(param)]];
      } else if !param.default.NoDefault? {
        var value := if param.default.Dynamic? then produce(i) else param.default.value;
        wire := wire[param.name := value];
      }
    }
    assert params[..|params|] == params;
  }

  /** Within one operation no two parameters share a caller-facing name. */
  predicate AliasesUnique(params: seq<ParamSpec>) {
    forall i, j :: 0 <= i < j < |params| ==> ParamName(params[i]) != ParamName(params[j])
  }

  predicate WireNamesUnique(params: seq<ParamSpec>) {
    forall i, j :: 0 <= i < j < |params| ==> params[i].name != params[j].name
  }

  /** A required parameter never declares a default. */
  predicate NoRequiredDefault(params: seq<ParamSpec>) {
    forall i :: 0 <= i < |params| && params[i].required ==> params[i].default.NoDefault?
  }
}
