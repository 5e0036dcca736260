/**
 * Error templates: `str.format(**wire_kwargs)` restricted to the
 * placeholders the catalogue uses (`{{`, `}}` and `{name}`), and
 * `render_template`, which formats every field of a prototype error.
 */
module Templates {
  import opened Values
  import opened Exceptions

  predicate IsBrace(c: char) {
    c == '{' || c == '}'
  }

  predicate BraceFree(s: string) {
    forall i :: 0 <= i < |s| ==> !IsBrace(s[i])
  }

  /** Length of the longest brace-free prefix: where a field name stops. */
  function FieldEnd(s: string): (k: nat)
    ensures k <= |s|
    ensures forall i :: 0 <= i < k ==> !IsBrace(s[i])
    ensures k < |s| ==> IsBrace(s[k])
    decreases |s|
  {
    if s == [] || IsBrace(s[0]) then 0 else 1 + FieldEnd(s[1..])
  }

  function Prepend(prefix: string, r: Result<string, Exception>): Result<string, Exception> {
    match r
    case Ok(s) => Ok(prefix + s)
    case Err(e) => Err(e)
  }

  /**
   * `template.format(**kwargs)`, read left to right: a doubled brace stands
   * for itself, `{name}` for `str(kwargs[name])`; a missing name raises
   * KeyError, an empty one IndexError (there are no positional arguments),
   * and a lone or unclosed brace ValueError. The first problem met is the
   * one raised.
   */
  function Format(template: string, kwargs: map<string, Value>): Result<string, Exception>
    decreases |template|
  {
    if template == [] then Ok("")
    else if template[0] == '{' then
      if |template| == 1 then Err(ValueError)
      else if template[1] == '{' then Prepend("{", Format(template[2..], kwargs))
      else
        var field := template[1..];
        var k := FieldEnd(field);
        if k == |field| || field[k] == '{' then Err(ValueError)
        else
          var name := field[..k];
          if name == "" then Err(IndexError(0))
          else if name !in kwargs then Err(KeyError(name))
          else Prepend(ToStr(kwargs[name]), Format(field[k + 1..], kwargs))
    else if template[0] == '}' then
      if |template| >= 2 && template[1] == '}' then Prepend("}", Format(template[2..], kwargs))
      else Err(ValueError)
    else Prepend([template[0]], Format(template[1..], kwargs))
  }

  /**
   * The field names a template refers to, or None when it is malformed: an
   * independent reading of the same grammar, used to say when Format succeeds.
   */
  function Fields(template: string): Option<set<string>>
    decreases |template|
  {
    if template == [] then Some({})
    else if template[0] == '{' then
      if |template| == 1 then None
      else if template[1] == '{' then Fields(template[2..])
      else
        var field := template[1..];
        var k := FieldEnd(field);
        if k == |field| || field[k] == '{' then None
        else
          match Fields(field[k + 1..])
          case None => None
          case Some(names) => Some({field[..k]} + names)
    else if template[0] == '}' then
      if |template| >= 2 && template[1] == '}' then Fields(template[2..]) else None
    else Fields(template[1..])
  }

  /** Formatting succeeds exactly when the template is well formed and names only keyword arguments that were passed. */
  lemma {:induction false} FormatSucceedsIff(template: string, kwargs: map<string, Value>)
    ensures Format(template, kwargs).Ok?
        <==> Fields(template).Some? && "" !in Fields(template).value && Fields(template).value <= kwargs.Keys
    decreases |template|
  {
    if template == [] {
    } else if template[0] == '{' {
      if |template| == 1 {
      } else if template[1] == '{' {
        FormatSucceedsIff(template[2..], kwargs);
      } else {
        var field := template[1..];
        var k := FieldEnd(field);
        if k < |field| && field[k] != '{' {
          FormatSucceedsIff(field[k + 1..], kwargs);
        }
      }
    } else if template[0] == '}' {
      if |template| >= 2 && template[1] == '}' {
        FormatSucceedsIff(template[2..], kwargs);
      }
    } else {
      FormatSucceedsIff(template[1..], kwargs);
    }
  }

  lemma PrependPrepend(a: string, b: string, r: Result<string, Exception>)
    ensures Prepend(a, Prepend(b, r)) == Prepend(a + b, r)
  {
    if r.Ok? {
      assert a + (b + r.value) == (a + b) + r.value;
    }
  }

  /** Brace-free text passes through unchanged. */
  lemma {:induction false} FormatLiteralPrefix(text: string, rest: string, kwargs: map<string, Value>)
    requires BraceFree(text)
    ensures Format(text + rest, kwargs) == Prepend(text, Format(rest, kwargs))
    decreases |text|
  {
    if text == [] {
      assert text + rest == rest;
      if Format(rest, kwargs).Ok? {
        assert text + Format(rest, kwargs).value == Format(rest, kwargs).value;
      }
    } else {
      var t := text + rest;
      assert t[0] == text[0] && !IsBrace(t[0]);
      assert t[1..] == text[1..] + rest;
      FormatLiteralPrefix(text[1..], rest, kwargs);
      PrependPrepend([text[0]], text[1..], Format(rest, kwargs));
      assert [text[0]] + text[1..] == text;
    }
  }

  /** `{name}` after brace-free text is replaced by the keyword argument's string form, or raises KeyError when it is missing. */
  lemma FormatField(text: string, name: string, rest: string, kwargs: map<string, Value>)
    requires BraceFree(text) && BraceFree(name) && name != ""
    ensures Format(text + "{" + name + "}" + rest, kwargs)
         == if name in kwargs then Prepend(text + ToStr(kwargs[name]), Format(rest, kwargs))
            else Err(KeyError(name))
  {
    var t := "{" + name + "}" + rest;
    assert text + "{" + name + "}" + rest == text + t;
    FormatLiteralPrefix(text, t, kwargs);
    var field := t[1..];
    assert field == name + "}" + rest;
    var k := FieldEnd(field);
    assert field[|name|] == '}';
    assert k == |name|;
    assert field[..k] == name;
    assert field[k + 1..] == rest;
    if name in kwargs {
      PrependPrepend(text, ToStr(kwargs[name]), Format(rest, kwargs));
    }
  }

  lemma FormatLiteral(text: string, kwargs: map<string, Value>)
    requires BraceFree(text)
    ensures Format(text, kwargs) == Ok(text)
  {
    FormatLiteralPrefix(text, "", kwargs);
    assert text + "" == text;
  }

  /** Brace-free text names no field. */
  lemma {:induction false} FieldsLiteralPrefix(text: string, rest: string)
    requires BraceFree(text)
    ensures Fields(text + rest) == Fields(rest)
    decreases |text|
  {
    if text == [] {
      assert text + rest == rest;
    } else {
      var t := text + rest;
      assert t[0] == text[0] && !IsBrace(t[0]);
      assert t[1..] == text[1..] + rest;
      FieldsLiteralPrefix(text[1..], rest);
    }
  }

  /** `{name}` after brace-free text adds `name` to the fields of the rest. */
  lemma FieldsField(text: string, name: string, rest: string)
    requires BraceFree(text) && BraceFree(name) && name != ""
    ensures Fields(text + "{" + name + "}" + rest)
         == match Fields(rest) case None => None case Some(names) => Some({name} + names)
  {
    var t := "{" + name + "}" + rest;
    assert text + "{" + name + "}" + rest == text + t;
    FieldsLiteralPrefix(text, t);
    var field := t[1..];
    assert field == name + "}" + rest;
    var k := FieldEnd(field);
    assert field[|name|] == '}';
    assert k == |name|;
    assert field[..k] == name;
    assert field[k + 1..] == rest;
  }

  /** Doubles every brace, so that formatting gives the text back. */
  function Escape(s: string): string
    decreases |s|
  {
    if s == [] then ""
    else (if IsBrace(s[0]) then [s[0], s[0]] else [s[0]]) + Escape(s[1..])
  }

  lemma {:induction false} EscapeRoundTrip(s: string, kwargs: map<string, Value>)
    ensures Format(Escape(s), kwargs) == Ok(s)
    ensures Fields(Escape(s)) == Some({})
    decreases |s|
  {
    if s != [] {
      var e := Escape(s);
      EscapeRoundTrip(s[1..], kwargs);
      if IsBrace(s[0]) {
        assert e[0] == s[0] && e[1] == s[0] && e[2..] == Escape(s[1..]);
      } else {
        assert e[0] == s[0] && e[1..] == Escape(s[1..]);
      }
      assert [s[0]] + s[1..] == s;
    }
  }

  /** No two pairs of a prototype share a key (it is written as a dict). */
  predicate DistinctKeys(prototype: seq<(string, string)>) {
    forall i, j :: 0 <= i < j < |prototype| ==> prototype[i].0 != prototype[j].0
  }

  function KeysOf(prototype: seq<(string, string)>): set<string> {
    set i | 0 <= i < |prototype| :: prototype[i].0
  }

  /**
   * The `Error` that `render_template(prototype)` builds from the wire
   * arguments, filled in the prototype's order; the first field whose
   * format raises decides the exception.
   */
  function Rendered(prototype: seq<(string, string)>, wire: map<string, Value>): (r: Result<map<string, string>, Exception>)
    ensures r.Ok? ==> r.value.Keys == KeysOf(prototype)
    decreases |prototype|
  {
    if prototype == [] then Ok(map[])
    else
      var n := |prototype| - 1;
      assert KeysOf(prototype) == KeysOf(prototype[..n]) + {prototype[n].0} by {
        forall i | 0 <= i < n ensures prototype[..n][i] == prototype[i] { }
      }
      match Rendered(prototype[..n], wire)
      case Err(e) => Err(e)
      case Ok(error) =>
        match Format(prototype[n].1, wire)
        case Err(e) => Err(e)
        case Ok(text) => Ok(error[prototype[n].0 := text])
  }

  /** Rendering succeeds exactly when every field of the prototype formats. */
  lemma {:induction false} RenderedSucceedsIff(prototype: seq<(string, string)>, wire: map<string, Value>)
    ensures Rendered(prototype, wire).Ok? <==> forall i :: 0 <= i < |prototype| ==> Format(prototype[i].1, wire).Ok?
    decreases |prototype|
  {
    if prototype != [] {
      var n := |prototype| - 1;
      var prefix := prototype[..n];
      assert forall i :: 0 <= i < n ==> prefix[i] == prototype[i];
      RenderedSucceedsIff(prefix, wire);
    }
  }

  /** A rendered `Error` holds, under each key of the prototype, that key's own formatted text. */
  lemma {:induction false} RenderedValues(prototype: seq<(string, string)>, wire: map<string, Value>, i: nat)
    requires DistinctKeys(prototype) && i < |prototype| && Rendered(prototype, wire).Ok?
    ensures Format(prototype[i].1, wire).Ok?
    ensures Rendered(prototype, wire).value[prototype[i].0] == Format(prototype[i].1, wire).value
    decreases |prototype|
  {
    var n := |prototype| - 1;
    if i < n {
      var prefix := prototype[..n];
      assert prefix[i] == prototype[i];
      RenderedValues(prefix, wire, i);
    }
  }

  /** A failed rendering raises the exception of the first field that does not format. */
  lemma {:induction false} RenderedFirstFailure(prototype: seq<(string, string)>, wire: map<string, Value>)
    requires Rendered(prototype, wire).Err?
    ensures exists i :: 0 <= i < |prototype| && Format(prototype[i].1, wire).Err?
              && (forall j :: 0 <= j < i ==> Format(prototype[j].1, wire).Ok?)
              && Rendered(prototype, wire).error == Format(prototype[i].1, wire).error
    decreases |prototype|
  {
    var n := |prototype| - 1;
    var prefix := prototype[..n];
    assert forall i :: 0 <= i < n ==> prefix[i] == prototype[i];
    if Rendered(prefix, wire).Err? {
      RenderedFirstFailure(prefix, wire);
      var i :| 0 <= i < n && Format(prefix[i].1, wire).Err?
              && (forall j :: 0 <= j < i ==> Format(prefix[j].1, wire).Ok?)
              && Rendered(prefix, wire).error == Format(prefix[i].1, wire).error;
      assert Format(prototype[i].1, wire).Err?;
    } else {
      RenderedSucceedsIff(prefix, wire);
      assert Format(prototype[n].1, wire).Err?;
    }
  }

  /** Once a prefix of the prototype fails, the rest is never rendered. */
  lemma {:induction false} RenderedFailureSticks(prototype: seq<(string, string)>, i: nat, wire: map<string, Value>)
    requires i <= |prototype| && Rendered(prototype[..i], wire).Err?
    ensures Rendered(prototype, wire) == Rendered(prototype[..i], wire)
    decreases |prototype| - i
  {
    if i < |prototype| {
      assert prototype[..i + 1][..i] == prototype[..i];
      RenderedFailureSticks(prototype, i + 1, wire);
    } else {
      assert prototype[..i] == prototype;
    }
  }

  /** A two-field prototype whose templates both format renders to the two formatted texts. */
  lemma RenderedPair(first: (string, string), second: (string, string), wire: map<string, Value>)
    requires Format(first.1, wire).Ok? && Format(second.1, wire).Ok?
    ensures Rendered([first, second], wire)
         == Ok(map[first.0 := Format(first.1, wire).value][second.0 := Format(second.1, wire).value])
  {
    var prototype := [first, second];
    assert prototype[..1] == [first] && [first][..0] == [];
    assert Rendered([first], wire) == Ok(map[][first.0 := Format(first.1, wire).value]);
    assert map[][first.0 := Format(first.1, wire).value] == map[first.0 := Format(first.1, wire).value];
  }

  /** `render_template(prototype)(error, wire_kwargs)`: fills the `Error` dict field by field. */
  method RenderTemplate(prototype: seq<(string, string)>, wire: map<string, Value>)
    returns (r: Result<map<string, string>, Exception>)
    ensures r == Rendered(prototype, wire)
  {
    var error: map<string, string> := map[];
    for i := 0 to |prototype|
      invariant Rendered(prototype[..i], wire) == Ok(error)
    {
      assert prototype[..i + 1][..i] == prototype[..i];
      var (key, value) := prototype[i];
      var text := Format(value, wire);
      if text.Err? {
        RenderedFailureSticks(prototype, i + 1, wire);
        return Err(text.error);
      }
      error := error[key := text.value];
    }
    assert prototype[..|prototype|] == prototype;
    r := Ok(error);
  }
}
