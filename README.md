# spazio: typed access to environment variables, in Dafny

`spazio(source, source2)` builds an accessor object over a mapping from
variable names to raw string values. The mapping is the process environment,
or the two given sources merged with the second one winning. The object has
four accessors:

- `boolean(name, default?)`
- `number(name, default?)`
- `string(name, default?)`
- `oneOf(name, allowedValues, default?)`

Each call runs the same fixed sequence of checks:

1. the argument count;
2. for `oneOf`, that every allowed value is a string;
3. the class tag of a supplied default;
4. the lookup of `name` as an own key.

An absent name yields the default unchanged, or an `UnsetVariableError`. A
present name is coerced: `string` returns it as it is, `boolean` accepts
exactly `"true"` and `"false"`, `number` keeps anything that `Number()` does
not turn into NaN, and `oneOf` requires one of the allowed values. Failures
are four kinds of error with exact messages: a plain `Error` for the argument
count, `TypeError`, `UnsetVariableError` and `ValueError`.

The model is pure, like the code it models: datatypes, functions and lemmas.

- `values.dfy` (`JsValues`): the JavaScript values a call can pass or return, and the class tag that `Object.prototype.toString` reports.
- `outcomes.dfy` (`Outcomes`): `Result`, `Option` and the four error kinds with their `name` properties.
- `sources.dfy` (`Sources`): the effective source (`getEnv`).
- `text.dfy` (`Text`): `indexOf` and `join` over arrays of strings.
- `messages.dfy` (`Messages`): the exact error messages.
- `accessors.dfy` (`Accessors`): the generic accessor `def`, the three coercions, the three accessors built from `def`, and `oneOf`.
- `factory.dfy` (`Factory`): the accessor object returned by `spazio`.
- `properties.dfy` (`AccessorProperties`): properties that relate several calls.
- `scenarios.dfy` (`Scenarios`): concrete calls from the test suite, with their exact outcomes.

A call is modelled by its argument list `args: seq<JsValue>`, so the
`arguments.length` the accessors test is `|args|`. An explicitly passed
`undefined` counts as an argument. So `boolean('FOO', undefined)` fails the
default-type check, as it does in JavaScript. The process environment is a
parameter of every call, because `getEnv()` reads it afresh each time.

Where the code and the documentation comment of `oneOf` in index.d.ts:47-49
differ, the model follows the code. That comment promises the value "provided
that the value is one of the permissible strings", but index.js:76-77 returns
a supplied default for an unset variable without looking at the allowed
values. So a successful `oneOf` returns one of the allowed values only when the
variable is set. When the variable is unset, a string default is returned
without any membership check (`OneOfDefaultNotCheckedForMembership`).

## Model

| member | source | states |
|---|---|---|
| `Outcomes.ErrorName` | index.js:3-14 | the `name` of each kind: `Error`, `TypeError`, `UnsetVariableError` (index.js:14), `ValueError` (index.js:7) |
| `Outcomes.ErrorNamesDistinct` | index.js:7-14 | the four kinds have four different `name`s, so consumers can tell them apart |
| `JsValues.TagMatchesClassName` | index.js:26 | comparing `Object.prototype.toString` with `[object T]` is the same as comparing the class name with `T` |
| `JsValues.ClassNameSelectsKind` | index.js:26 | class name `String`, `Number` or `Boolean` holds exactly for a string, number or boolean value |
| `JsValues.SelfEqualUnlessNaN` | index.js:55 | `num === num` is false exactly for NaN |
| `Sources.GetEnv` | index.js:17-19 | with no source, the process environment; otherwise the names are those of both sources, a name in the second source maps to its value there, and a name only in the first source keeps its value from the first |
| `Sources.GivenSourceHidesProcessEnv` | index.js:18 | once any source is given (even an empty one), the process environment does not affect the result |
| `Sources.SingleSourceUsedAsIs` | index.js:18 | a single given source, in either position, is the effective source |
| `Sources.SecondSourceWins` | test/index.js:30-34 | a name in the second source reads the second source's value |
| `Text.IndexOf` | index.js:81 | -1 exactly when the value is absent; otherwise the index of its first occurrence |
| `Text.Join` | index.js:83 | the empty text for no strings; otherwise as long as all the strings plus one separator between each pair of neighbours |
| `Text.JoinAt` | index.js:83 | the joined text holds each string at its offset in order, with the separator between neighbours and nothing after the last |
| `Messages.DefaultTypeMessage` | index.js:27 | the message quotes the variable name after its fixed prefix and ends with the type name |
| `Messages.UnsetVariableMessage` | index.js:22 | the message quotes the variable name after its fixed prefix |
| `Messages.NotBooleanMessage` | index.js:51 | the message quotes the variable name after its fixed prefix |
| `Messages.NotNumberMessage` | index.js:56 | the message quotes the variable name after its fixed prefix |
| `Messages.MemberList` | index.js:83 | the allowed values joined by the member separator (space, bar, space), inside parentheses |
| `Messages.NotMemberMessage` | index.js:82-84 | the message quotes the variable name and ends with the parenthesised list of allowed values |
| `Messages.MessagesIdentifyVariable` | index.js:22-27 | two messages of one kind about different variables differ |
| `Messages.MemberListHoldsMembers` | index.js:83 | the list in the membership error holds every allowed value in the given order, separated by the member separator, closing the parenthesis |
| `Accessors.CheckArity` | index.js:33-35 | passes exactly for an accepted argument count; "Too few arguments" below it, "Too many arguments" above it |
| `Accessors.CheckDefaultValueType` | index.js:25-29 | passes exactly when the default's class name is the expected type; otherwise a TypeError with the default-type message |
| `Accessors.CreateUnsetVariableError` | index.js:21-23 | an UnsetVariable error whose message quotes the variable name after its fixed prefix |
| `Accessors.Def` | index.js:31-46 | success requires an accepted argument count; an absent name yields the default itself, which has the expected type |
| `Accessors.CoerceBoolean` | index.js:48-52 | `true` exactly for `"true"`, `false` exactly for `"false"`, otherwise the ValueError |
| `Accessors.CoerceNumber` | index.js:53-57 | succeeds exactly when the conversion is not NaN, and then yields the converted number; otherwise the ValueError |
| `Accessors.CoerceString` | index.js:59-61 | the coercion of `string`: never fails and yields the raw text unchanged |
| `Accessors.Boolean` | index.js:48 | a successful result is a boolean |
| `Accessors.Number` | index.js:53 | a successful result is a number |
| `Accessors.String` | index.js:59 | a successful result is a string |
| `Accessors.CheckMembers` | index.js:68-72 | passes exactly when every allowed value is a string, yielding them in order; otherwise the enumerated-type TypeError |
| `Accessors.OneOf` | index.js:63-88 | success requires an accepted argument count; a set variable yields its own value, which is one of the allowed values; an unset one yields the supplied default |
| `AccessorProperties.ArgumentCountCheckedFirst` | index.js:33-66 | outside the accepted counts, every accessor fails with the same argument error, whatever the arguments and environment |
| `AccessorProperties.DefaultTypeCheckedBeforeLookup` | index.js:37 | a default of the wrong type gives the TypeError whether the variable is set or not |
| `AccessorProperties.MembersCheckedBeforeDefaultAndLookup` | index.js:68-74 | one non-string allowed value gives the enumerated-type TypeError, even with a valid default and in any environment |
| `AccessorProperties.UnsetVariableUsesDefault` | index.js:39-42 | an unset variable yields a well-typed default unchanged, or without a default the UnsetVariable error naming it |
| `AccessorProperties.SetVariableIgnoresDefault` | index.js:44 | for a set variable, a well-typed default does not change the outcome, value or error |
| `AccessorProperties.BooleanAcceptsExactlyTrueAndFalse` | index.js:48-52 | for a set variable, `true` iff it is `"true"`, `false` iff it is `"false"`, and otherwise the ValueError |
| `AccessorProperties.NumberKeepsConvertedValue` | index.js:53-57 | for a set variable, success iff the conversion is not NaN, yielding the converted number, and otherwise the ValueError |
| `AccessorProperties.StringIsIdentity` | index.js:59-61 | for a set variable, the stored value itself |
| `AccessorProperties.OneOfAcceptsExactlyMembers` | index.js:81-87 | for a set variable, success iff its value is an allowed value, then that value; otherwise the ValueError listing the allowed values |
| `AccessorProperties.OneOfDefaultNotCheckedForMembership` | index.js:76-77 | an unset variable yields a string default even when it is not an allowed value |
| `AccessorProperties.CallerErrorsIndependentOfEnvironment` | index.js:33-37 | for `boolean`, `number` and `string`, argument-count and type errors come out the same against any environment |
| `AccessorProperties.OneOfCallerErrorsIndependentOfEnvironment` | index.js:64-74 | for `oneOf`, argument-count and type errors (allowed values or default) come out the same against any environment |
| `AccessorProperties.EnvironmentErrorsMatchPresence` | index.js:39-44 | an UnsetVariable error only for an absent name with no default; a ValueError only for a present name; `string` never gives a ValueError |
| `Factory.Spazio.Env` | index.js:16-19 | the process environment when no source is given; otherwise the merged sources, independent of the process environment |
| `Factory.Spazio.Boolean` | index.js:47-52 | a success has an accepted argument count and is a boolean; for a set variable it is `true` exactly when the text is `"true"` |
| `Factory.Spazio.Number` | index.js:53-57 | a success has an accepted argument count; for a set variable it is the converted number, which is not NaN |
| `Factory.Spazio.String` | index.js:59-61 | a success has an accepted argument count; for a set variable it is the stored text |
| `Factory.Spazio.OneOf` | index.js:63-89 | a success has an accepted argument count and is a string; for a set variable it is the stored text, one of the allowed values |
| `Factory.ProcessEnvReadOnEachCall` | index.js:17-18 | with no source, each call reads the process environment as it is at that call |
| `Factory.SecondSourceTakesPrecedence` | index.js:18 | with both sources given, the second source's value wins, the first fills in, and otherwise the variable is unset |
| `Scenarios.DigitMemberList` | test/index.js:265-273 | the allowed values `0`, `1`, `2` are listed in that order, separated by the member separator, in parentheses |
| `Scenarios.WrongArgumentCounts` | test/index.js:82-92 | `boolean()` has too few arguments and `boolean(1, 2, 3)` too many |
| `Scenarios.OneOfWrongArgumentCounts` | test/index.js:229-237 | `oneOf(1)` has too few arguments and `oneOf(1, 2, 3, 4)` too many |
| `Scenarios.MistypedDefaults` | test/index.js:94-98 | a text default for `boolean` is the default-type TypeError, and so is an explicitly passed `undefined` |
| `Scenarios.UnsetFooWithoutDefault` | test/index.js:107-111 | unset FOO without a default is the UnsetVariable error |
| `Scenarios.BooleanRefusesOne` | test/index.js:100-126 | `"1"` is refused, and a set `"false"` wins over a `true` default |
| `Scenarios.NumberRefusesNaN` | test/index.js:156-161 | a value that converts to NaN is the number ValueError |
| `Scenarios.CheckDigitMembers` | test/index.js:265-273 | the allowed values `"0"`, `"1"`, `"2"` pass the scan |
| `Scenarios.OneOfRefusesNonMember` | test/index.js:265-273 | `X` against `0`, `1`, `2` is the membership ValueError, whose list reads `(0`, space, bar, space, `1` and so on up to `2)` |
| `Scenarios.OneOfRefusesNumberMember` | test/index.js:240-247 | a number among the allowed values is the TypeError, even with a valid default |
| `Scenarios.OneOfReturnsValue` | test/index.js:275-279 | a set value that is an allowed value is returned |
| `Scenarios.OneOfReturnsDefault` | test/index.js:255-257 | an unset variable returns the default |
| `Scenarios.MergedSourcesPreferSecond` | test/index.js:36-50 | the second source's value wins over the first |

## Left out

- `Number()` conversion (index.js:54): the text-to-number conversion is the parameter `toNumber` of `Number` and `CoerceNumber`, so only the NaN test and the wrapper around it are modelled. The outcomes for `"42"` or `"1.2.3"` are therefore stated for whatever the conversion returns.
- Signed zero: `JsNumber` has no `-0`, so `===` on numbers is modelled without it. NaN and the infinities are modelled.
- The process environment is a parameter of each call rather than a global. The up to three `getEnv()` reads of one `oneOf` call are one read, because nothing can change the mapping within one call.
- The two given sources are captured as values when the accessor object is built. Later mutation of those JavaScript objects, which the code would observe, is not modelled.
- Source values are strings. Non-string values inside a user-supplied source (a test passes `{FOO: 123}`) are not modelled.
- A source key `__proto__` with a string value is dropped by `Object.assign`: the write goes through the inherited `__proto__` setter, which ignores a value that is neither an object nor null. The code therefore treats that name as unset, while `GetEnv` keeps it as a set name.
- Inherited properties are not modelled: names are looked up as plain map keys, which is what `hasOwnProperty` achieves.
- A source is given or absent (`Option`). JavaScript truthiness of other falsy sources (`0`, `""`, `null`) is not modelled beyond "absent".
- `Accessors.WellTypedCall`: the name argument of an accepted call is required to be a string, as the type declarations declare it. For `oneOf`, the allowed values are required to be an array. A call with a non-string name (JavaScript would convert it to text) or a non-array `allowedValues` (JavaScript fails at `forEach` with an engine-specific message) is outside the model.
- Sparse arrays: `Arr` holds a sequence, so an `allowedValues` array with holes is not modelled. In JavaScript `forEach` and `indexOf` skip a hole and `join` prints it as empty text, so `oneOf('FOO', ['a', , 'b'])` passes the string scan and its error lists `(a |  | b)`.
- Boxed primitives (`new String("x")`, whose class tag is also `String`), functions and other host objects are not values of `JsValue`. An ordinary object is `Obj`.
- The error objects' prototype chain (index.js:3-14) and their `instanceof Error` behaviour are not modelled. Each error is a kind with a message, and `ErrorName` gives its `name` property.
- Module export plumbing (index.js:92-96) and the type declarations in index.d.ts have no logic to model.
