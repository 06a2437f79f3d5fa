# react-constraint-validation, modelled in Dafny

This project models the core of react-constraint-validation. The library validates form fields on the client side. It has two cooperating pieces:

- **The message registry and validator set** (`src/Validator.tsx`). The registry is process-wide state. It holds a map from validator key to message template, where a key may be qualified by a field name (`required.username`). It also holds the function that turns a parameter name into its placeholder (`{name}` by default). `init` replaces the map with the built-in English templates merged with overrides. `setInterpolationPatternFn` replaces the placeholder syntax. `getErrorMessage` picks a template and `interpolate` fills in its placeholders. The eight validators (`required`, `min`, `max`, `minLength`, `maxLength`, `pattern`, `email`, `number`) return `undefined` for a valid value, or the resolved message.
- **The field decorator** (`src/withValidator.tsx`). It wraps an input component. On validation it runs the default validators in key order and stops at the first result that is not `undefined`. If that result is falsy, it then runs the conditional validators. A conditional validator runs only when the component has a truthy prop of the same name: a boolean prop gives the two-argument call, and any other value is passed as the parameter. When rendering, the decorator forwards the props without the conditional-validator keys and adds its own `validate`.

Modules:

- `Options`: the `Option` type, standing for `T | undefined`.
- `JsValues`: the JavaScript values the code inspects, with truthiness and `String()` coercion.
- `Strings`: first-occurrence search and replace, as `String.prototype.replace` does with a string pattern, and JavaScript's `length`, which counts UTF-16 code units.
- `Validator`: the registry as class `Registry`. Lookup, interpolation and the validators are functions of a `Settings` snapshot of the registry. `parseFloat` and `RegExp.prototype.test` are supplied as `Builtins`.
- `WithValidator`: the decorator's logic as class `ValidationWrapper`. The loops are methods proved against recursive specification functions. Validator maps are ordered sequences of (key, function) pairs, in the key order `Object.keys` gives.

Where the code and some descriptions of the library differ, the model follows the code:

- `interpolate` replaces only the first occurrence of each placeholder, not every occurrence.
- `number` rejects `"0"`, because `parseFloat("0")` is `0`, which is falsy.
- `min` and `max` never check a value that parses to `0`.
- A field-qualified template is used only when it is a non-empty string.
- A falsy parameter (`0`, `""`, `undefined`) leaves its placeholder in the message.

## Model

| member | source | states |
|---|---|---|
| `Strings.FindFrom` | src/Validator.tsx:56 | The result is the first index at or after `from` where the pattern occurs. No earlier index matches, and `None` means the pattern occurs nowhere from there on. |
| `Strings.ReplaceFirst` | src/Validator.tsx:56 | With no occurrence the string is unchanged. Otherwise the first occurrence alone is replaced by the replacement text. A non-empty string with a non-empty replacement stays non-empty. |
| `Strings.ReplaceFirstKeepsLaterOccurrence` | src/Validator.tsx:56 | A later occurrence of the placeholder survives the replacement, shifted by the change in length. |
| `Strings.Utf16Length` | src/Validator.tsx:99 | `value.length` lies between the number of characters and twice that. It equals the number of characters exactly when no character lies outside the Basic Multilingual Plane. |
| `Strings.Utf16LengthOfEmoji` | src/Validator.tsx:99 | One emoji (U+1F600) is one character but has length 2. |
| `JsValues.Truthy` | src/Validator.tsx:55 | The falsy values are exactly undefined, null, false, 0, NaN and `""`. Everything else is truthy. |
| `JsValues.NatToString` | src/Validator.tsx:56 | The decimal numeral of a natural number: non-empty, digits only, no leading zero, and its digits denote the number. |
| `JsValues.ToStr` | src/Validator.tsx:56 | The text `replace` inserts for a parameter. A string is inserted as it is. A number is inserted as a numeral that denotes it, with a minus sign exactly when it is negative (JavaScript agrees for integers of magnitude up to 2^53). A truthy value never gives `""`. |
| `Validator.DefaultPatternShape` | src/Validator.tsx:19-21 | The default placeholder of `p` is `p` between `{` and `}`, two characters longer, so distinct parameters have distinct placeholders. |
| `Validator.Registry.constructor` | src/Validator.tsx:23-24 | The initial state is the built-in templates and the `{p}` placeholder syntax. |
| `Validator.Registry.Init` | src/Validator.tsx:26-28 | Afterwards each key maps to the override if there is one, else to the built-in template. Every built-in key is present. Earlier `init` calls leave no trace. The placeholder syntax is kept. |
| `Validator.Registry.SetInterpolationPatternFn` | src/Validator.tsx:30-32 | Only the placeholder syntax changes. The messages stay as they were. |
| `Validator.Registry.Interpolate` | src/Validator.tsx:51-60 | The loop over the parameters yields exactly `Interpolated`: falsy parameters skipped, each truthy one replacing the first occurrence of its placeholder, in key order. |
| `Validator.GetErrorMessage` | src/Validator.tsx:34-45 | A non-empty `key.name` template wins when the name is non-empty. Otherwise the plain `key` template is used. The result is undefined exactly when neither exists. |
| `Validator.InterpolateAllFalsy` | src/Validator.tsx:53-57 | With no truthy parameter the message comes back unchanged. |
| `Validator.InterpolateNoPlaceholder` | src/Validator.tsx:51-60 | A message containing no placeholder of any truthy parameter comes back unchanged. |
| `Validator.InterpolateConcat` | src/Validator.tsx:53 | Substitution runs strictly in key order: interpolating `first + rest` equals interpolating `first`, then `rest`. |
| `Validator.InterpolateNonEmpty` | src/Validator.tsx:51-60 | A non-empty template never interpolates to the empty string. |
| `Validator.InterpolateReplacesFirstOccurrenceOnly` | src/Validator.tsx:56 | `"{name} or {name}"` with `name = "Age"` gives `"Age or {name}"`. |
| `Validator.ResolveErrorMessage` | src/Validator.tsx:62-64 | The result is defined exactly when a template is found. A non-empty template resolves to a non-empty message. With every parameter falsy the template comes back as it is. The `requires` excludes the call JavaScript would throw on. |
| `Validator.Required` | src/Validator.tsx:66-71 | Errs exactly when the value is falsy. The error is the `required` template resolved with `{name, value}`. |
| `Validator.Min` | src/Validator.tsx:73-82 | `""` is valid. Errs exactly when the parsed number is truthy (not 0, not NaN) and below the bound. The error is the `min` message with `{name, value, minValue}`. |
| `Validator.Max` | src/Validator.tsx:84-93 | `""` is valid. Errs exactly when the parsed number is truthy and above the bound. The error is the `max` message. |
| `Validator.MinLength` | src/Validator.tsx:95-103 | Errs exactly when the value is non-empty and its UTF-16 length is below the bound, so a length equal to the bound is valid. The error is the `minLength` message. |
| `Validator.MaxLength` | src/Validator.tsx:105-113 | Errs exactly when the value is non-empty and its UTF-16 length is above the bound. The error is the `maxLength` message. |
| `Validator.Pattern` | src/Validator.tsx:115-124 | Errs exactly when the value is non-empty and the expression does not match it. The error is the `pattern` message. |
| `Validator.Email` | src/Validator.tsx:126-135 | `""` is valid. Any error is the `email` message, never the inner `maxLength` or `pattern` one. With non-empty inner templates it errs exactly when the value's UTF-16 length is above 254 or the value fails the address pattern. |
| `Validator.Number` | src/Validator.tsx:137-146 | Errs exactly when the value is non-empty and parses to 0 or NaN. The error is the `number` message. |
| `Validator.InterpolateLeadingName` | src/Validator.tsx:51-60 | A template opening with `{name}`, given a non-empty name followed only by falsy parameters, opens with that name. |
| `Validator.RequiredWithLeadingName` | src/Validator.tsx:66-71 | For a template opening with `{name}`, `required` on a falsy value yields the field name followed by the rest of the template. |
| `Validator.RequiredDefaultMessage` | src/Validator.tsx:7 | With the built-in templates, the field "Age" with an empty value gets `"Age is required"`. |
| `Validator.QualifiedTemplateWins` | src/Validator.tsx:34-45 | With a `required.username` entry, the field "username" gets that template and the field "email" still gets the plain `required` template. |
| `Validator.LengthCountsCodeUnits` | src/Validator.tsx:95-113 | One emoji passes `minLength` 2 and fails `maxLength` 1, because it counts as two code units. |
| `Validator.InitOverrideExample` | src/Validator.tsx:23-28 | A fresh registry where `init` has overridden `required` with `"{name}!!"`: `required` on an empty value for the field "X" reports `"X!!"`. |
| `WithValidator.FirstDefaultErrorIsFirst` | src/withValidator.tsx:66-77 | The default scan returns the result of the first validator that does not return undefined, and every earlier one returned undefined. It returns undefined exactly when all of them do. `""` stops the scan. |
| `WithValidator.FirstConditionalErrorIsFirst` | src/withValidator.tsx:44-64 | The conditional scan returns the first defined result among validators whose prop is truthy. A boolean prop gives the call with an undefined parameter; any other value is passed as the parameter. The result is undefined exactly when every gated call is. |
| `WithValidator.Gated` | src/withValidator.tsx:51-59 | A falsy prop gives no call and no error. The prop `true` gives the two-argument call, so the parameter is undefined. Any other truthy prop is passed as the parameter. |
| `WithValidator.NoTruthyPropNoError` | src/withValidator.tsx:50-63 | If no validator key names a truthy prop, no conditional validator runs and the result is undefined. |
| `WithValidator.ValidationWrapper.constructor` | src/withValidator.tsx:25-35 | The wrapper keeps the two validator tables given to the decorator and the current props. |
| `WithValidator.ValidationWrapper.Validate` | src/withValidator.tsx:36-42 | A non-empty-string result from the defaults is returned. Otherwise (undefined or `""`) the conditional validators' result is returned. |
| `WithValidator.ValidationWrapper.ApplyValidators` | src/withValidator.tsx:44-64 | The loop yields `FirstConditionalError`. The ghost count `scanned` is one past the index of the key whose validator produced the result, or the number of keys when there is none. Every key before that one gave undefined. |
| `WithValidator.ValidationWrapper.ApplyDefaultValidators` | src/withValidator.tsx:66-77 | The loop yields `FirstDefaultError`. The ghost count `called` is one past the index of the validator that produced the result, or the number of validators when there is none. Every validator before that one returned undefined. |
| `WithValidator.ValidationWrapper.RemoveValidatorProps` | src/withValidator.tsx:79-87 | The copy holds exactly the props that are not conditional-validator keys, each with its value unchanged. Default-validator keys are kept. |
| `WithValidator.ValidationWrapper.Render` | src/withValidator.tsx:89-95 | The forwarded props are the stripped props plus `validate` bound to the wrapper, which overrides any incoming `validate`. |

## Left out

- The component framework: the wrapper class's React base, JSX rendering, component types and the `bind` in the constructor. The forwarded props are modelled as a map, and the bound `validate` as the value `BoundValidate`.
- The regular-expression engine. `RegExp.prototype.test` is a function-valued parameter (`Builtins.regexTest`), and the address pattern is passed to it as text. A pattern that makes `new RegExp` throw is not modelled.
- `parseFloat` and floating point. `Builtins.parseFloat` is a parameter returning an integer or NaN. Fractions, the infinities and `-0` are not modelled.
- `String.prototype.replace` details. `$`-sequences in replacement text are not interpreted.
- JsValues.ToStr: every object, array and function parameter is inserted as `"[object Object]"`. JavaScript would call a function as a replacer, join an array's elements (`String([])` is `""`, though `[]` is truthy) and use any custom `toString`. `Validator.InterpolateNonEmpty` relies on this simplification for object parameters. The validators pass only strings, numbers and `undefined`.
- Validators returning `null`. Results are `string | undefined` as typed, so `null`, which `!= undefined` treats like `undefined`, is not a separate case.
- A non-string `name` prop. `NameOf` reads a string `name` and treats anything else as absent.
- `defaultValidators` left undefined behaves exactly like an empty table, and is modelled as the empty sequence.
- Concurrent or interleaved re-initialisation of the process-wide registry. The model has one `Registry` object whose methods run one at a time.
- JsValues.ToStr: numbers are unbounded integers and are always written as their exact decimal digits. JavaScript's `String()` switches to exponent form from 1e21 (`"1e+21"`). It writes integers above 2^53 as the shortest digits that round to the same double (`String(2**64)` is `"18446744073709552000"`). Messages with such bounds or values differ in those digits.
- Validator.Min, Validator.Max, Validator.MinLength, Validator.MaxLength, Validator.Pattern, Validator.Email, Validator.Number: `value` is a string, as the source declares. The decorator also passes `undefined` for a field with no value. The source treats that through `!value` exactly as it treats `""`: the value is valid. The model's `""` case stands for both.
- Validator.ResolveErrorMessage: requires that the template exists or every parameter is falsy. The other case makes JavaScript throw a `TypeError`. The validators always meet this, because the registry always holds every built-in key (`Registry.Valid`).
- Validator.Email: the "errs exactly when" clause is stated only when the `maxLength` and `pattern` templates are non-empty. With an empty inner template the inner result is falsy, and the model then computes, without stating it, what the code does.
- The demonstration applications, build configuration and snapshot tests are not part of this model.
