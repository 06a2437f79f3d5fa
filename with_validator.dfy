/**
  The validation logic of the field decorator in `src/withValidator.tsx`,
  without the component framework around it.

  A decorated field holds two ordered validator tables fixed when the
  decorator is applied: conditional validators, keyed by the prop that
  switches them on, and default validators, which always run. The key order
  of a table is the insertion order `Object.keys` reports. Validators are
  arbitrary function values; a conditional validator called with two
  arguments receives `undefined` as its third, as in JavaScript.
 */
module WithValidator {
  import opened Options
  import opened JsValues

  /** `(name, value) => string | undefined` */
  type DefaultValidator = (Option<string>, JsValue) -> Option<string>

  /** `(name, value, param) => string | undefined` */
  type ConditionalValidator = (Option<string>, JsValue, JsValue) -> Option<string>

  type Props = map<string, JsValue>

  /** `props[key]`: undefined when the prop is absent. */
  function PropValue(props: Props, key: string): JsValue
  {
    if key in props then props[key] else Undefined
  }

  /** `props.name`, the field name passed to every validator. */
  function NameOf(props: Props): Option<string>
  {
    if "name" in props && props["name"].Str? then Some(props["name"].s) else None
  }

  /**
    What the scan of the conditional validators gets for one key: nothing
    unless the prop is truthy; `true` gives the two-argument call, and any
    other truthy prop is passed on as the validator's parameter.
   */
  function Gated(validate: ConditionalValidator, param: JsValue, name: Option<string>, value: JsValue): (r: Option<string>)
    ensures !Truthy(param) ==> r.None?
    ensures param == Bool(true) ==> r == validate(name, value, Undefined)
    ensures Truthy(param) && !param.Bool? ==> r == validate(name, value, param)
  {
    if !Truthy(param) then None
    else if param.Bool? then validate(name, value, Undefined)
    else validate(name, value, param)
  }

  /** The result of `applyDefaultValidators`: the first result that is not undefined. */
  function FirstDefaultError(defaults: seq<(string, DefaultValidator)>, name: Option<string>, value: JsValue): Option<string>
    decreases |defaults|
  {
    if defaults == [] then None
    else
      var error := defaults[0].1(name, value);
      if error.Some? then error else FirstDefaultError(defaults[1..], name, value)
  }

  /** The result of `applyValidators`: the first gated result that is not undefined. */
  function FirstConditionalError(validators: seq<(string, ConditionalValidator)>, props: Props, name: Option<string>, value: JsValue): Option<string>
    decreases |validators|
  {
    if validators == [] then None
    else
      var error := Gated(validators[0].1, PropValue(props, validators[0].0), name, value);
      if error.Some? then error else FirstConditionalError(validators[1..], props, name, value)
  }

  /** `key` names one of the conditional validators. */
  predicate IsValidatorKey(validators: seq<(string, ConditionalValidator)>, key: string)
  {
    exists i :: 0 <= i < |validators| && validators[i].0 == key
  }

  /**
    The default scan returns the result of the first default validator that
    does not return undefined, and undefined only when every one does. An
    empty string stops the scan like any other string.
   */
  lemma {:induction false} FirstDefaultErrorIsFirst(defaults: seq<(string, DefaultValidator)>, name: Option<string>, value: JsValue)
    ensures FirstDefaultError(defaults, name, value).None? <==>
              forall i :: 0 <= i < |defaults| ==> defaults[i].1(name, value).None?
    ensures FirstDefaultError(defaults, name, value).Some? ==>
              exists i :: 0 <= i < |defaults| && defaults[i].1(name, value) == FirstDefaultError(defaults, name, value) &&
                forall j :: 0 <= j < i ==> defaults[j].1(name, value).None?
    decreases |defaults|
  {
    if defaults != [] {
      FirstDefaultErrorIsFirst(defaults[1..], name, value);
      var r := FirstDefaultError(defaults, name, value);
      if defaults[0].1(name, value).None? {
        if r.Some? {
          var i :| 0 <= i < |defaults[1..]| && defaults[1..][i].1(name, value) == r &&
                   forall j :: 0 <= j < i ==> defaults[1..][j].1(name, value).None?;
          assert defaults[i + 1].1(name, value) == r;
          assert forall j :: 0 <= j < i + 1 ==> defaults[j].1(name, value).None? by {
            forall j | 0 <= j < i + 1
              ensures defaults[j].1(name, value).None?
            {
              if j > 0 {
                assert defaults[j] == defaults[1..][j - 1];
              }
            }
          }
        } else {
          forall i | 0 <= i < |defaults|
            ensures defaults[i].1(name, value).None?
          {
            if i > 0 {
              assert defaults[i] == defaults[1..][i - 1];
            }
          }
        }
      }
    }
  }

  /**
    The conditional scan returns the first result that is not undefined
    among the validators whose prop is truthy, each called with that prop
    (or with undefined when the prop is a boolean); it is undefined exactly
    when every such call returns undefined.
   */
  lemma {:induction false} FirstConditionalErrorIsFirst(validators: seq<(string, ConditionalValidator)>, props: Props, name: Option<string>, value: JsValue)
    ensures FirstConditionalError(validators, props, name, value).None? <==>
              forall i :: 0 <= i < |validators| ==> Gated(validators[i].1, PropValue(props, validators[i].0), name, value).None?
    ensures FirstConditionalError(validators, props, name, value).Some? ==>
              exists i :: 0 <= i < |validators| && Truthy(PropValue(props, validators[i].0)) &&
                Gated(validators[i].1, PropValue(props, validators[i].0), name, value) == FirstConditionalError(validators, props, name, value) &&
                forall j :: 0 <= j < i ==> Gated(validators[j].1, PropValue(props, validators[j].0), name, value).None?
    decreases |validators|
  {
    if validators != [] {
      FirstConditionalErrorIsFirst(validators[1..], props, name, value);
      var r := FirstConditionalError(validators, props, name, value);
      var rest := validators[1..];
      if Gated(validators[0].1, PropValue(props, validators[0].0), name, value).None? {
        if r.Some? {
          var i :| 0 <= i < |rest| && Truthy(PropValue(props, rest[i].0)) &&
                   Gated(rest[i].1, PropValue(props, rest[i].0), name, value) == r &&
                   forall j :: 0 <= j < i ==> Gated(rest[j].1, PropValue(props, rest[j].0), name, value).None?;
          assert validators[i + 1] == rest[i];
          forall j | 0 <= j < i + 1
            ensures Gated(validators[j].1, PropValue(props, validators[j].0), name, value).None?
          {
            if j > 0 {
              assert validators[j] == rest[j - 1];
            }
          }
        } else {
          forall i | 0 <= i < |validators|
            ensures Gated(validators[i].1, PropValue(props, validators[i].0), name, value).None?
          {
            if i > 0 {
              assert validators[i] == rest[i - 1];
            }
          }
        }
      }
    }
  }

  /** With no truthy prop under any validator key, no conditional validator runs and the result is undefined. */
  lemma {:induction false} NoTruthyPropNoError(validators: seq<(string, ConditionalValidator)>, props: Props, name: Option<string>, value: JsValue)
    requires forall i :: 0 <= i < |validators| ==> !Truthy(PropValue(props, validators[i].0))
    ensures FirstConditionalError(validators, props, name, value) == None
    decreases |validators|
  {
    if validators != [] {
      var rest := validators[1..];
      forall i | 0 <= i < |rest|
        ensures !Truthy(PropValue(props, rest[i].0))
      {
        assert rest[i] == validators[i + 1];
      }
      NoTruthyPropNoError(rest, props, name, value);
    }
  }

  /** The value the wrapper passes as the `validate` prop: its own bound `validate` method. */
  const BoundValidate: JsValue := Obj("validate")

  /**
    One decorated field. The validator tables are fixed when the decorator
    is applied; `props` are the props of the current render.
   */
  class ValidationWrapper {
    const validators: seq<(string, ConditionalValidator)>
    const defaultValidators: seq<(string, DefaultValidator)>
    var props: Props

    constructor (validators: seq<(string, ConditionalValidator)>, defaultValidators: seq<(string, DefaultValidator)>, props: Props)
      ensures this.validators == validators && this.defaultValidators == defaultValidators && this.props == props
    {
      this.validators := validators;
      this.defaultValidators := defaultValidators;
      this.props := props;
    }

    /**
      `validate(value)`: the default validators' result when it is a
      non-empty string; otherwise (undefined or "") the conditional
      validators' result.
     */
    method Validate(value: JsValue) returns (error: Option<string>)
      ensures TruthyString(FirstDefaultError(defaultValidators, NameOf(props), value)) ==>
                error == FirstDefaultError(defaultValidators, NameOf(props), value)
      ensures !TruthyString(FirstDefaultError(defaultValidators, NameOf(props), value)) ==>
                error == FirstConditionalError(validators, props, NameOf(props), value)
    {
      ghost var called: nat;
      error, called := ApplyDefaultValidators(defaultValidators, NameOf(props), value);
      if !TruthyString(error) {
        ghost var scanned: nat;
        error, scanned := ApplyValidators(validators, NameOf(props), value);
      }
    }

    /**
      `applyValidators`: scans the keys in order, calls a validator only
      when the prop of the same name is truthy, and stops at the first
      result that is not undefined. `scanned` counts the keys looked at,
      and the result comes from the last of them.
     */
    method ApplyValidators(conditionals: seq<(string, ConditionalValidator)>, name: Option<string>, value: JsValue)
      returns (firstError: Option<string>, ghost scanned: nat)
      ensures firstError == FirstConditionalError(conditionals, props, name, value)
      ensures scanned <= |conditionals|
      ensures forall j :: 0 <= j < scanned - 1 ==> Gated(conditionals[j].1, PropValue(props, conditionals[j].0), name, value).None?
      ensures firstError.None? ==> scanned == |conditionals|
      ensures firstError.Some? ==>
                0 < scanned && Truthy(PropValue(props, conditionals[scanned - 1].0)) &&
                firstError == Gated(conditionals[scanned - 1].1, PropValue(props, conditionals[scanned - 1].0), name, value)
    {
      firstError, scanned := None, 0;
      var i := 0;
      while i < |conditionals|
        invariant 0 <= i <= |conditionals| && scanned == i && firstError.None?
        invariant forall j :: 0 <= j < i ==> Gated(conditionals[j].1, PropValue(props, conditionals[j].0), name, value).None?
        invariant FirstConditionalError(conditionals[i..], props, name, value) == FirstConditionalError(conditionals, props, name, value)
      {
        var (key, validate) := conditionals[i];
        var validatorParam := PropValue(props, key);
        if Truthy(validatorParam) {
          if validatorParam.Bool? {
            firstError := validate(name, value, Undefined);
          } else {
            firstError := validate(name, value, validatorParam);
          }
        }
        scanned := i + 1;
        if firstError.Some? {
          return;
        }
        i := i + 1;
      }
    }

    /**
      `applyDefaultValidators`: calls the default validators in key order
      and stops at the first result that is not undefined. `called` counts
      the validators invoked, and the result is that of the last of them.
     */
    method ApplyDefaultValidators(defaults: seq<(string, DefaultValidator)>, name: Option<string>, value: JsValue)
      returns (firstError: Option<string>, ghost called: nat)
      ensures firstError == FirstDefaultError(defaults, name, value)
      ensures called <= |defaults|
      ensures forall j :: 0 <= j < called - 1 ==> defaults[j].1(name, value).None?
      ensures firstError.None? ==> called == |defaults|
      ensures firstError.Some? ==> 0 < called && firstError == defaults[called - 1].1(name, value)
    {
      firstError, called := None, 0;
      var i := 0;
      while i < |defaults|
        invariant 0 <= i <= |defaults| && called == i && firstError.None?
        invariant forall j :: 0 <= j < i ==> defaults[j].1(name, value).None?
        invariant FirstDefaultError(defaults[i..], name, value) == FirstDefaultError(defaults, name, value)
      {
        var validate := defaults[i].1;
        firstError := validate(name, value);
        called := i + 1;
        if firstError.Some? {
          return;
        }
        i := i + 1;
      }
    }

    /**
      `removeValidatorProps(props)`: a copy of the given props without the
      conditional-validator keys; every other prop, default-validator keys
      included, keeps its value.
     */
    method RemoveValidatorProps(original: Props) returns (clonedProps: Props)
      ensures forall k :: k in clonedProps <==> k in original && !IsValidatorKey(validators, k)
      ensures forall k :: k in clonedProps ==> clonedProps[k] == original[k]
    {
      clonedProps := original;
      var i := 0;
      while i < |validators|
        invariant 0 <= i <= |validators|
        invariant forall k :: k in clonedProps <==> k in original && !IsValidatorKey(validators[..i], k)
        invariant forall k :: k in clonedProps ==> clonedProps[k] == original[k]
      {
        forall k
          ensures IsValidatorKey(validators[..i + 1], k) <==> IsValidatorKey(validators[..i], k) || k == validators[i].0
        {
          if IsValidatorKey(validators[..i + 1], k) {
            var j :| 0 <= j < i + 1 && validators[..i + 1][j].0 == k;
            if j < i {
              assert validators[..i][j].0 == k;
            }
          }
          if IsValidatorKey(validators[..i], k) {
            var j :| 0 <= j < i && validators[..i][j].0 == k;
            assert validators[..i + 1][j].0 == k;
          }
          if k == validators[i].0 {
            assert validators[..i + 1][i].0 == k;
          }
        }
        clonedProps := clonedProps - {validators[i].0};
        i := i + 1;
      }
      assert validators[..i] == validators;
    }

    /**
      The props `render` forwards to the wrapped component: the props
      without the conditional-validator keys, plus `validate` bound to this
      wrapper, which overrides any incoming `validate` prop.
     */
    method Render() returns (forwarded: Props)
      ensures "validate" in forwarded && forwarded["validate"] == BoundValidate
      ensures forall k :: k != "validate" ==> (k in forwarded <==> k in props && !IsValidatorKey(validators, k))
      ensures forall k :: k in forwarded && k != "validate" ==> forwarded[k] == props[k]
    {
      var originalProps := RemoveValidatorProps(props);
      forwarded := originalProps["validate" := BoundValidate];
    }
  }
}
