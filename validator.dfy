/**
  The message registry and the validator set of `src/Validator.tsx`.

  The registry's two process-wide variables (the configured messages and
  the interpolation pattern function) are the fields of class `Registry`;
  `Init` and `SetInterpolationPatternFn` overwrite them. The lookup, the
  substitution and the eight validators only read that state, so they are
  functions of a `Settings` snapshot of it (`Registry.Current()`).
  `parseFloat` and `RegExp.prototype.test` come in as `Builtins`.
 */
module Validator {
  import opened Options
  import opened JsValues
  import opened Strings

  /** The built-in English templates, keyed by validator. */
  const DefaultMessages: map<string, string> := map[
    "required" := "{name} is required",
    "min" := "{name} must be greater than {minValue}",
    "max" := "{name} must be less than {maxValue}",
    "minLength" := "{name} must have at least {minLength} characters",
    "maxLength" := "{name} must have less than {maxLength} characters",
    "pattern" := "{name} does not match the pattern {pattern}",
    "number" := "{name} must be a number",
    "email" := "{name} is not a valid email"
  ]

  /** The default placeholder syntax: parameter `p` is written `{p}`. */
  function DefaultPattern(param: string): string
  {
    "{" + param + "}"
  }

  /**
    The default placeholder of a parameter is its name between braces, so
    distinct parameters never share a placeholder.
   */
  lemma DefaultPatternShape(param: string, other: string)
    ensures |DefaultPattern(param)| == |param| + 2
    ensures DefaultPattern(param)[0] == '{' && DefaultPattern(param)[|param| + 1] == '}'
    ensures DefaultPattern(param)[1..|param| + 1] == param
    ensures DefaultPattern(param) == DefaultPattern(other) ==> param == other
  {
    var r := DefaultPattern(param);
    assert r[1..|param| + 1] == param;
    if r == DefaultPattern(other) {
      assert other == DefaultPattern(other)[1..|other| + 1];
    }
  }

  /** A snapshot of the registry: the configured messages and the placeholder syntax. */
  datatype Settings = Settings(messages: map<string, string>, patternFn: string -> string)
  {
    /** Every built-in key still has a template (overrides replace, never remove). */
    predicate HasDefaults()
    {
      DefaultMessages.Keys <= messages.Keys
    }
  }

  function DefaultSettings(): (s: Settings)
    ensures s.HasDefaults()
  {
    Settings(DefaultMessages, DefaultPattern)
  }

  /** The registry's state, replaced wholesale by `Init` and `SetInterpolationPatternFn`. */
  class Registry {
    var messages: map<string, string>
    var patternFn: string -> string

    ghost predicate Valid()
      reads this
    {
      Current().HasDefaults()
    }

    /** The state at module load: the defaults and `{p}` placeholders. */
    constructor ()
      ensures Valid()
      ensures messages == DefaultMessages && patternFn == DefaultPattern
    {
      messages := DefaultMessages;
      patternFn := DefaultPattern;
    }

    /** The registry's state as the value the validators read. */
    function Current(): Settings
      reads this
    {
      Settings(messages, patternFn)
    }

    /**
      `init(overrides)`: the defaults merged with the overrides, an override
      winning per key. Whatever earlier calls configured is discarded.
     */
    method Init(overrides: map<string, string>)
      modifies this
      ensures Valid()
      ensures messages.Keys == DefaultMessages.Keys + overrides.Keys
      ensures forall k :: k in overrides ==> messages[k] == overrides[k]
      ensures forall k :: k in DefaultMessages && k !in overrides ==> messages[k] == DefaultMessages[k]
      ensures patternFn == old(patternFn)
    {
      messages := DefaultMessages + overrides;
    }

    /** `setInterpolationPatternFn(fn)`: only the placeholder syntax changes. */
    method SetInterpolationPatternFn(fn: string -> string)
      requires Valid()
      modifies this
      ensures Valid()
      ensures patternFn == fn && messages == old(messages)
    {
      patternFn := fn;
    }

    /**
      `interpolate(message, params)`: walks the parameters in key order and,
      for each truthy one, replaces the first occurrence of its placeholder.
     */
    method Interpolate(message: string, params: seq<(string, JsValue)>) returns (finalMessage: string)
      ensures finalMessage == Interpolated(message, params, patternFn)
    {
      finalMessage := message;
      var i := 0;
      while i < |params|
        invariant 0 <= i <= |params|
        invariant Interpolated(finalMessage, params[i..], patternFn) == Interpolated(message, params, patternFn)
      {
        var (key, value) := params[i];
        if Truthy(value) {
          finalMessage := ReplaceFirst(finalMessage, patternFn(key), ToStr(value));
        }
        i := i + 1;
      }
    }
  }

  function Lookup(messages: map<string, string>, key: string): Option<string>
  {
    if key in messages then Some(messages[key]) else None
  }

  /** The key of a template specific to one field, such as `required.username`. */
  function QualifiedKey(key: string, name: string): string
  {
    key + "." + name
  }

  /** A non-empty field-specific template exists for `key` and the (non-empty) field name. */
  predicate HasQualified(messages: map<string, string>, key: string, name: Option<string>)
  {
    name.Some? && name.value != "" &&
    QualifiedKey(key, name.value) in messages && messages[QualifiedKey(key, name.value)] != ""
  }

  /** `getErrorMessage(key, name)`: the field-specific template if there is a non-empty one, else the plain one. */
  function GetErrorMessage(messages: map<string, string>, key: string, name: Option<string>): (r: Option<string>)
    ensures HasQualified(messages, key, name) ==> r == Some(messages[QualifiedKey(key, name.value)])
    ensures !HasQualified(messages, key, name) ==> r == Lookup(messages, key)
    ensures r.None? <==> key !in messages && !HasQualified(messages, key, name)
  {
    if name.None? || name.value == "" then
      Lookup(messages, key)
    else
      var withName := Lookup(messages, QualifiedKey(key, name.value));
      if withName.Some? && withName.value != "" then withName else Lookup(messages, key)
  }

  /**
    The string `interpolate` builds: parameters are taken in order, falsy
    ones are skipped, and each truthy one replaces the first occurrence of
    its placeholder in the message built so far.
   */
  function Interpolated(message: string, params: seq<(string, JsValue)>, patternFn: string -> string): string
    decreases |params|
  {
    if params == [] then message
    else
      var (key, value) := params[0];
      var next := if Truthy(value) then ReplaceFirst(message, patternFn(key), ToStr(value)) else message;
      Interpolated(next, params[1..], patternFn)
  }

  predicate AllFalsy(params: seq<(string, JsValue)>)
  {
    forall i :: 0 <= i < |params| ==> !Truthy(params[i].1)
  }

  /** Falsy parameters are skipped, so with no truthy parameter the message is returned as it is. */
  lemma {:induction false} InterpolateAllFalsy(message: string, params: seq<(string, JsValue)>, patternFn: string -> string)
    requires AllFalsy(params)
    ensures Interpolated(message, params, patternFn) == message
    decreases |params|
  {
    if params != [] {
      InterpolateAllFalsy(message, params[1..], patternFn);
    }
  }

  /** A message with no placeholder for any truthy parameter comes back unchanged. */
  lemma {:induction false} InterpolateNoPlaceholder(message: string, params: seq<(string, JsValue)>, patternFn: string -> string)
    requires forall i, j: nat :: 0 <= i < |params| && Truthy(params[i].1) ==> !OccursAt(message, patternFn(params[i].0), j)
    ensures Interpolated(message, params, patternFn) == message
    decreases |params|
  {
    if params != [] {
      InterpolateNoPlaceholder(message, params[1..], patternFn);
    }
  }

  /** Parameters are substituted strictly in key order: a parameter list can be split anywhere. */
  lemma {:induction false} InterpolateConcat(message: string, first: seq<(string, JsValue)>, rest: seq<(string, JsValue)>, patternFn: string -> string)
    ensures Interpolated(message, first + rest, patternFn) == Interpolated(Interpolated(message, first, patternFn), rest, patternFn)
    decreases |first|
  {
    if first == [] {
      assert first + rest == rest;
    } else {
      assert (first + rest)[1..] == first[1..] + rest;
      var (key, value) := first[0];
      var next := if Truthy(value) then ReplaceFirst(message, patternFn(key), ToStr(value)) else message;
      InterpolateConcat(next, first[1..], rest, patternFn);
    }
  }

  /** A non-empty template never interpolates to the empty string (which callers would read as "valid"). */
  lemma {:induction false} InterpolateNonEmpty(message: string, params: seq<(string, JsValue)>, patternFn: string -> string)
    requires message != ""
    ensures Interpolated(message, params, patternFn) != ""
    decreases |params|
  {
    if params != [] {
      var (key, value) := params[0];
      var next := if Truthy(value) then ReplaceFirst(message, patternFn(key), ToStr(value)) else message;
      InterpolateNonEmpty(next, params[1..], patternFn);
    }
  }

  /** A placeholder written twice is substituted once: the second copy stays in the message. */
  lemma InterpolateReplacesFirstOccurrenceOnly()
    ensures Interpolated("{name} or {name}", [("name", Str("Age"))], DefaultPattern) == "Age or {name}"
  {
    var m, params := "{name} or {name}", [("name", Str("Age"))];
    assert DefaultPattern("name") == "{name}" && ToStr(Str("Age")) == "Age";
    assert m[0..6] == "{name}";
    assert FindFrom(m, "{name}", 0) == Some(0);
    assert m[6..] == " or {name}";
    var replaced := ReplaceFirst(m, "{name}", "Age");
    assert replaced == "Age or {name}";
    assert params[1..] == [];
    assert Interpolated(m, params, DefaultPattern) == Interpolated(replaced, [], DefaultPattern);
  }

  /**
    `resolveErrorMessage(key, name, params)`: the template for `key` and
    `name`, interpolated. An undefined template is returned as undefined
    when every parameter is falsy; with a truthy parameter JavaScript
    would call `replace` on `undefined` and throw, which callers avoid.
   */
  function ResolveErrorMessage(s: Settings, key: string, name: Option<string>, params: seq<(string, JsValue)>): (r: Option<string>)
    requires GetErrorMessage(s.messages, key, name).Some? || AllFalsy(params)
    ensures r.Some? <==> GetErrorMessage(s.messages, key, name).Some?
    ensures AllFalsy(params) ==> r == GetErrorMessage(s.messages, key, name)
    ensures TruthyString(GetErrorMessage(s.messages, key, name)) ==> TruthyString(r)
  {
    var template := GetErrorMessage(s.messages, key, name);
    if template.None? then
      None
    else
      var text := Interpolated(template.value, params, s.patternFn);
      assert AllFalsy(params) ==> text == template.value by {
        if AllFalsy(params) {
          InterpolateAllFalsy(template.value, params, s.patternFn);
        }
      }
      assert template.value != "" ==> text != "" by {
        if template.value != "" {
          InterpolateNonEmpty(template.value, params, s.patternFn);
        }
      }
      Some(text)
  }

  /** What the validators need from the JavaScript runtime. */
  datatype Builtins = Builtins(
    parseFloat: string -> JsNumber,
    /** `new RegExp(pattern).test(value)` */
    regexTest: (string, string) -> bool)

  /** The `name` interpolation parameter: the field name, or undefined. */
  function NameParam(name: Option<string>): JsValue
  {
    if name.Some? then Str(name.value) else Undefined
  }

  /** The message validator `key` reports for `name` with parameters `params`. */
  function Message(s: Settings, key: string, name: Option<string>, params: seq<(string, JsValue)>): Option<string>
    requires s.HasDefaults() && key in DefaultMessages
  {
    ResolveErrorMessage(s, key, name, params)
  }

  /** `required(name, value)`: exactly the falsy values are errors. */
  function Required(s: Settings, name: Option<string>, value: JsValue): (r: Option<string>)
    requires s.HasDefaults()
    ensures r.Some? <==> !Truthy(value)
    ensures r.Some? ==> r == Message(s, "required", name, [("name", NameParam(name)), ("value", value)])
  {
    if !Truthy(value) then Message(s, "required", name, [("name", NameParam(name)), ("value", value)])
    else None
  }

  /**
    `min(name, value, minValue)`: an error only when the parsed number is
    truthy (not 0, not NaN) and strictly below the bound; so "0" is never
    checked, and a non-numeric value passes.
   */
  function Min(s: Settings, b: Builtins, name: Option<string>, value: string, minValue: int): (r: Option<string>)
    requires s.HasDefaults()
    ensures value == "" ==> r.None?
    ensures r.Some? <==> value != "" && Truthy(b.parseFloat(value)) && b.parseFloat(value).n < minValue
    ensures r.Some? ==> r == Message(s, "min", name, [("name", NameParam(name)), ("value", Str(value)), ("minValue", Num(minValue))])
  {
    if value == "" then None
    else
      var valueAsNumber := b.parseFloat(value);
      if Truthy(valueAsNumber) && valueAsNumber.n < minValue then
        Message(s, "min", name, [("name", NameParam(name)), ("value", Str(value)), ("minValue", Num(minValue))])
      else None
  }

  /** `max(name, value, maxValue)`: the mirror image of `Min`, with the same skip of 0 and NaN. */
  function Max(s: Settings, b: Builtins, name: Option<string>, value: string, maxValue: int): (r: Option<string>)
    requires s.HasDefaults()
    ensures value == "" ==> r.None?
    ensures r.Some? <==> value != "" && Truthy(b.parseFloat(value)) && b.parseFloat(value).n > maxValue
    ensures r.Some? ==> r == Message(s, "max", name, [("name", NameParam(name)), ("value", Str(value)), ("maxValue", Num(maxValue))])
  {
    if value == "" then None
    else
      var valueAsNumber := b.parseFloat(value);
      if Truthy(valueAsNumber) && valueAsNumber.n > maxValue then
        Message(s, "max", name, [("name", NameParam(name)), ("value", Str(value)), ("maxValue", Num(maxValue))])
      else None
  }

  /**
    `minLength(name, value, minLength)`: a non-empty value shorter than the
    bound is an error. Length is JavaScript's, in UTF-16 code units.
   */
  function MinLength(s: Settings, name: Option<string>, value: string, minLength: int): (r: Option<string>)
    requires s.HasDefaults()
    ensures r.Some? <==> value != "" && Utf16Length(value) < minLength
    ensures r.Some? ==> r == Message(s, "minLength", name, [("name", NameParam(name)), ("value", Str(value)), ("minLength", Num(minLength))])
  {
    if value == "" then None
    else if Utf16Length(value) < minLength then
      Message(s, "minLength", name, [("name", NameParam(name)), ("value", Str(value)), ("minLength", Num(minLength))])
    else None
  }

  /** `maxLength(name, value, maxLength)`: a value longer than the bound (in UTF-16 code units) is an error. */
  function MaxLength(s: Settings, name: Option<string>, value: string, maxLength: int): (r: Option<string>)
    requires s.HasDefaults()
    ensures r.Some? <==> value != "" && Utf16Length(value) > maxLength
    ensures r.Some? ==> r == Message(s, "maxLength", name, [("name", NameParam(name)), ("value", Str(value)), ("maxLength", Num(maxLength))])
  {
    if value == "" then None
    else if Utf16Length(value) > maxLength then
      Message(s, "maxLength", name, [("name", NameParam(name)), ("value", Str(value)), ("maxLength", Num(maxLength))])
    else None
  }

  /** `pattern(name, value, pattern)`: a non-empty value the expression does not match is an error. */
  function Pattern(s: Settings, b: Builtins, name: Option<string>, value: string, pattern: string): (r: Option<string>)
    requires s.HasDefaults()
    ensures r.Some? <==> value != "" && !b.regexTest(pattern, value)
    ensures r.Some? ==> r == Message(s, "pattern", name, [("name", NameParam(name)), ("value", Str(value)), ("pattern", Str(pattern))])
  {
    if value == "" then None
    else if !b.regexTest(pattern, value) then
      Message(s, "pattern", name, [("name", NameParam(name)), ("value", Str(value)), ("pattern", Str(pattern))])
    else None
  }

  /** The expression `email` hands to `pattern`. */
  const EmailPattern: string :=
    @"^(([^<>()\[\]\.,;:\s@\""]+(\.[^<>()\[\]\.,;:\s@\""]+)*)|(\"".+\""))@(([^<>()[\]\.,;:\s@\""]+\.)+[^<>()[\]\.,;:\s@\""]{2,})$"

  /** The longest address `email` accepts, in UTF-16 code units. */
  const EmailMaxLength := 254

  /**
    `email(name, value)`: runs `maxLength(254)` and `pattern(EmailPattern)`
    and, when either reports a (non-empty) message, reports the `email`
    template instead of theirs.
   */
  function Email(s: Settings, b: Builtins, name: Option<string>, value: string): (r: Option<string>)
    requires s.HasDefaults()
    ensures value == "" ==> r.None?
    ensures r.Some? ==> r == Message(s, "email", name, [("name", NameParam(name)), ("value", Str(value))])
    ensures s.messages["maxLength"] != "" && s.messages["pattern"] != "" ==>
              (r.Some? <==> value != "" && (Utf16Length(value) > EmailMaxLength || !b.regexTest(EmailPattern, value)))
  {
    if value == "" then None
    else if TruthyString(MaxLength(s, name, value, EmailMaxLength)) || TruthyString(Pattern(s, b, name, value, EmailPattern)) then
      Message(s, "email", name, [("name", NameParam(name)), ("value", Str(value))])
    else None
  }

  /** `number(name, value)`: an error exactly when the parsed number is falsy, that is 0 or NaN. */
  function Number(s: Settings, b: Builtins, name: Option<string>, value: string): (r: Option<string>)
    requires s.HasDefaults()
    ensures r.Some? <==> value != "" && !Truthy(b.parseFloat(value))
    ensures r.Some? ==> r == Message(s, "number", name, [("name", NameParam(name)), ("value", Str(value))])
  {
    if value == "" then None
    else if !Truthy(b.parseFloat(value)) then
      Message(s, "number", name, [("name", NameParam(name)), ("value", Str(value))])
    else None
  }

  /**
    A template that opens with the `name` placeholder, interpolated with a
    non-empty name followed only by falsy parameters, opens with the name.
   */
  lemma InterpolateLeadingName(rest: string, name: string, tail: seq<(string, JsValue)>)
    requires name != "" && AllFalsy(tail)
    ensures Interpolated(DefaultPattern("name") + rest, [("name", Str(name))] + tail, DefaultPattern) == name + rest
  {
    var template := DefaultPattern("name") + rest;
    var params := [("name", Str(name))] + tail;
    assert template[..|DefaultPattern("name")|] == DefaultPattern("name");
    ReplaceAtStart(template, DefaultPattern("name"), name);
    assert template[|DefaultPattern("name")|..] == rest;
    assert params[1..] == tail;
    InterpolateAllFalsy(name + rest, tail, DefaultPattern);
  }

  /**
    `required` on a falsy value, for a field whose template opens with the
    `name` placeholder, reports the field name followed by the rest of the
    template.
   */
  lemma RequiredWithLeadingName(s: Settings, name: string, rest: string, value: JsValue)
    requires s.HasDefaults() && s.patternFn == DefaultPattern
    requires name != "" && !Truthy(value)
    requires GetErrorMessage(s.messages, "required", Some(name)) == Some(DefaultPattern("name") + rest)
    ensures Required(s, Some(name), value) == Some(name + rest)
  {
    InterpolateLeadingName(rest, name, [("value", value)]);
    assert [("name", Str(name))] + [("value", value)] == [("name", NameParam(Some(name))), ("value", value)];
  }

  /** With the built-in templates, a missing value for the field "Age" reads "Age is required". */
  lemma RequiredDefaultMessage()
    ensures Required(DefaultSettings(), Some("Age"), Str("")) == Some("Age is required")
  {
    assert "Age" + " is required" == "Age is required";
    assert GetErrorMessage(DefaultMessages, "required", Some("Age")) == Some(DefaultPattern("name") + " is required") by {
      assert "required.Age" !in DefaultMessages;
      assert DefaultMessages["required"] == "{name} is required";
      assert QualifiedKey("required", "Age") == "required.Age";
      assert DefaultPattern("name") + " is required" == "{name} is required";
    }
    RequiredWithLeadingName(DefaultSettings(), "Age", " is required", Str(""));
  }

  /** The messages of a registry where the field "username" has its own `required` template. */
  function UsernameMessages(): (m: map<string, string>)
    ensures DefaultMessages.Keys <= m.Keys
    ensures HasQualified(m, "required", Some("username"))
    ensures m[QualifiedKey("required", "username")] == DefaultPattern("name") + ": please choose one"
    ensures !HasQualified(m, "required", Some("email"))
    ensures m["required"] == DefaultPattern("name") + " is required"
  {
    assert QualifiedKey("required", "username") == "required.username";
    assert QualifiedKey("required", "email") == "required.email";
    assert DefaultPattern("name") + ": please choose one" == "{name}: please choose one";
    assert DefaultPattern("name") + " is required" == "{name} is required";
    DefaultMessages["required.username" := "{name}: please choose one"]
  }

  /**
    A template registered for one field is used for that field only: with
    a `required.username` entry, "username" gets it and "email" still gets
    the plain `required` template.
   */
  lemma QualifiedTemplateWins()
    ensures Required(Settings(UsernameMessages(), DefaultPattern), Some("username"), Undefined)
            == Some("username: please choose one")
    ensures Required(Settings(UsernameMessages(), DefaultPattern), Some("email"), Undefined)
            == Some("email is required")
  {
    assert "username" + ": please choose one" == "username: please choose one";
    assert "email" + " is required" == "email is required";
    RequiredWithLeadingName(Settings(UsernameMessages(), DefaultPattern), "username", ": please choose one", Undefined);
    RequiredWithLeadingName(Settings(UsernameMessages(), DefaultPattern), "email", " is required", Undefined);
  }

  /**
    A character outside the Basic Multilingual Plane counts as two: one
    emoji satisfies `minLength` 2 and breaks `maxLength` 1.
   */
  lemma LengthCountsCodeUnits()
    ensures MinLength(DefaultSettings(), None, "\U{1F600}", 2) == None
    ensures MaxLength(DefaultSettings(), None, "\U{1F600}", 1).Some?
  {
    Utf16LengthOfEmoji();
  }

  /**
    A registry configured by `init` with an override of `required`: the
    override, not the built-in template, is what `required` reports.
   */
  method InitOverrideExample() returns (message: Option<string>)
    ensures message == Some("X!!")
  {
    var registry := new Registry();
    registry.Init(map["required" := "{name}!!"]);
    var s := registry.Current();
    assert s.messages == DefaultMessages + map["required" := "{name}!!"];
    assert "X" + "!!" == "X!!";
    assert GetErrorMessage(s.messages, "required", Some("X")) == Some(DefaultPattern("name") + "!!") by {
      assert QualifiedKey("required", "X") == "required.X";
      assert DefaultPattern("name") + "!!" == "{name}!!";
    }
    RequiredWithLeadingName(s, "X", "!!", Str(""));
    message := Required(s, Some("X"), Str(""));
  }
}
