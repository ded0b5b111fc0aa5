# array-wrapper in Dafny

A model of `ZeleznyPa\ArrayWrapper\ArrayWrapper` and of the static-analysis
extension that types its magic methods.

`ArrayWrapper` is an object around one PHP array, updated in place. The array
can be reached in three ways:

- the array-access surface (`offsetExists`, `offsetGet`, `offsetSet`,
  `offsetUnset`, `count`);
- the property surface (`__get`, `__isset`, `__set`, `__unset`, named
  `MagicGet` etc. here);
- verb-named methods such as `getFoo()`, `hasFoo()`, `isFoo()`, `setFoo($v)`
  and `unsetFoo()`, all dispatched by `__call` (named `Call` here).

`__call` reads a method name with the pattern
`^(?P<method>(?:get|has|is|set|unset))(?P<offset>.*)$`. The pattern's `offset`
group, with its first letter lower-cased, names the array key.

The extension (`hasMethod` / `getMethod`) reads names with the same pattern. It
accepts a name only when the wrapper's template parameter `TInnerArray` is bound
to a constant array shape in which that key is definitely present. It then
builds a method descriptor. The setter's descriptor is `SetMethodReflection`,
with one `ValueParameterReflection` parameter.

Modules:

- `Wrappers`: Option and Result.
- `PhpExceptions`: `BadMethodCallException` and `InvalidArgumentException`
  with their messages; `getMethod` throws the latter without a message.
- `PhpStrings`: `lcfirst` and `ucfirst`.
- `NameGrammar`: the shared name pattern, with PCRE's handling of `.` and `$`
  around a line feed.
- `Runtime`: the `ArrayWrapper` class. Its `items` map is the wrapped array.
  `Dispatch` is the value-level meaning of `__call`.
- `RuntimeScenarios`: the unit tests, replayed as methods with contracts.
- `PhpStanTypes`: the host analyser's types, reduced to values.
- `ParameterReflection`, `SetReflection` and `MethodsExtension`: the
  extension.
- `Agreement`: how the runtime and static answers relate.

Where the code differs from what a reader might expect, the model follows the code:

- **Bare verbs are methods.** The `offset` group may be empty, so `get()`,
  `set($v)` and the others address the key `""` (`BareVerbTargetsEmptyKey`).
  A reader might expect an empty suffix to be rejected.
- **The verb getter takes no default.** The `get` branch of `__call` calls
  `offsetGet($offset)` without forwarding a default. So `getKey('value')` on a
  missing key throws "Missing item" instead of returning `'value'`
  (`CallGetIgnoresArguments`). Only `offsetGet` itself takes a default.
- **`lcfirst(ucfirst(f)) == f` is not an identity for every field.** It fails
  for fields that start with an upper-case letter (`LcFirstOfUcFirst`).
  `setFoo` therefore addresses `foo`, never `Foo`.
- **A final line feed is allowed.** `$` also matches before one final line
  feed, so `"getFoo\n"` is accepted as `getFoo`
  (`ParseVerbOffsetAndFinalNewline`).

`UnsetThenStaticGetterThrows` proves a divergence between the two paths. The
extension offers `unset<Offset>()` for a definitely present key. After that
call the key is gone, yet the extension still types `get<Offset>()` as the
field's type, and at runtime that getter then throws.

## Model

| member | source | states |
|---|---|---|
| PhpStrings.LcFirst | src/ArrayWrapper/ArrayWrapper.php:62 | only the first character changes; afterwards it is not an ASCII upper-case letter; a string not starting upper-case is unchanged |
| PhpStrings.UcFirst | phpstan/SetMethodReflection.php:55 | only the first character changes; afterwards it is not an ASCII lower-case letter; a string not starting lower-case is unchanged |
| PhpStrings.LcFirstOfUcFirst | phpstan/SetMethodReflection.php:53-56 | lcfirst(ucfirst(s)) == s exactly when s is empty or does not start upper-case |
| PhpStrings.UcFirstOfLcFirst | phpstan/ArrayWrapperMethodsClassReflectionExtension.php:79 | ucfirst(lcfirst(s)) == s exactly when s is empty or does not start lower-case |
| NameGrammar.Operation | src/ArrayWrapper/ArrayWrapper.php:64-72 | get reads, has and is (and only they) test presence, set writes, unset removes |
| NameGrammar.FirstAlternative | src/ArrayWrapper/ArrayWrapper.php:57 | the picked alternative is in the list and starts the name; None only when no alternative starts it |
| NameGrammar.OffsetCapture | src/ArrayWrapper/ArrayWrapper.php:57 | the capture holds no line feed and is the whole rest or the rest minus one final line feed; line-feed-free text is captured whole |
| NameGrammar.ParseMethodName | src/ArrayWrapper/ArrayWrapper.php:57-60 | a match splits the name into verb text and a line-feed-free offset, optionally followed by one final line feed |
| NameGrammar.FirstAlternativeIs | src/ArrayWrapper/ArrayWrapper.php:57 | the verb a name starts with is the alternative the engine picks |
| NameGrammar.ParseVerbAndOffset | src/ArrayWrapper/ArrayWrapper.php:57 | any verb followed by line-feed-free text parses back to exactly that verb and offset |
| NameGrammar.CaptureBeforeFinalNewline | src/ArrayWrapper/ArrayWrapper.php:57 | the offset group leaves out a final line feed |
| NameGrammar.ParseVerbOffsetAndFinalNewline | src/ArrayWrapper/ArrayWrapper.php:57 | verb + offset + one final line feed parses as verb + offset |
| NameGrammar.BareVerbTargetsEmptyKey | src/ArrayWrapper/ArrayWrapper.php:57-62 | a bare verb matches with an empty offset and addresses the key "" |
| Runtime.Dispatch | src/ArrayWrapper/ArrayWrapper.php:55-74 | BadMethodCall with the class-qualified message exactly when the name does not match; failures and get/has/is leave the array unchanged |
| Runtime.ArrayWrapper.constructor | src/ArrayWrapper/ArrayWrapper.php:32-35 | the wrapper holds the given array |
| Runtime.ArrayWrapper.Create | src/ArrayWrapper/ArrayWrapper.php:42-46 | a fresh wrapper holding the given array, the empty array by default |
| Runtime.ArrayWrapper.Call | src/ArrayWrapper/ArrayWrapper.php:55-74 | the string comparisons of the verb and the offset* calls yield the result and new array given by Dispatch |
| Runtime.ArrayWrapper.MagicGet | src/ArrayWrapper/ArrayWrapper.php:82-85 | returns the stored value of the key |
| Runtime.ArrayWrapper.MagicIsset | src/ArrayWrapper/ArrayWrapper.php:93-96 | true exactly when the key is present, whatever its value |
| Runtime.ArrayWrapper.MagicSet | src/ArrayWrapper/ArrayWrapper.php:105-108 | the array becomes the old array with the key bound to the value |
| Runtime.ArrayWrapper.MagicUnset | src/ArrayWrapper/ArrayWrapper.php:116-119 | the array becomes the old array without the key |
| Runtime.ArrayWrapper.Count | src/ArrayWrapper/ArrayWrapper.php:124-127 | the number of keys |
| Runtime.ArrayWrapper.OffsetExists | src/ArrayWrapper/ArrayWrapper.php:135-139 | true exactly when the key is present |
| Runtime.ArrayWrapper.OffsetGet | src/ArrayWrapper/ArrayWrapper.php:148-159 | stored value if present, else the default if one was passed, else InvalidArgument "Missing item \"[key]\"" |
| Runtime.ArrayWrapper.OffsetSet | src/ArrayWrapper/ArrayWrapper.php:168-171 | the key is bound to the value, nothing else changes, the count grows only for a new key |
| Runtime.ArrayWrapper.OffsetUnset | src/ArrayWrapper/ArrayWrapper.php:179-182 | the key is absent, nothing else changes, an absent key is a no-op, the count drops only for a present key |
| Runtime.ArrayWrapper.GetArray | src/ArrayWrapper/ArrayWrapper.php:190-193 | returns the wrapped array |
| Runtime.ArrayWrapper.SetArray | src/ArrayWrapper/ArrayWrapper.php:201-205 | replaces the wrapped array (protected: only the constructor calls it) |
| Runtime.RemoveKey | src/ArrayWrapper/ArrayWrapper.php:116-119 | after removal the key is absent; removing an absent key changes nothing; the count drops by one exactly for a present key |
| Runtime.DispatchFrame | src/ArrayWrapper/ArrayWrapper.php:55-74 | every key other than the targeted field keeps its presence and value |
| Runtime.CallGetIgnoresArguments | src/ArrayWrapper/ArrayWrapper.php:64-65 | get<Offset> with any arguments behaves as with none: stored value or Missing item, array unchanged |
| Runtime.HasIsSynonyms | src/ArrayWrapper/ArrayWrapper.php:66-67 | has<Offset> and is<Offset> give the same outcome: presence of the field, array unchanged |
| Runtime.SetStoresValue | src/ArrayWrapper/ArrayWrapper.php:68-69 | set<Offset>(v, ...) returns null and binds the field to v; the count grows only for a new key |
| Runtime.UnsetRemovesField | src/ArrayWrapper/ArrayWrapper.php:70-71 | unset<Offset>() returns null and leaves the field absent, is a no-op on an absent field, and the count drops only for a present field |
| Runtime.SetThenQuery | src/ArrayWrapper/ArrayWrapper.php:64-69 | after set<Offset>(v), get<Offset>() yields v and has/is yield true |
| Runtime.QueriesOfAbsentField | src/ArrayWrapper/ArrayWrapper.php:64-67 | on an absent field has/is yield false and get throws Missing item for that field |
| RuntimeScenarios.UndefinedMethodDoesNotParse | src/ArrayWrapper/ArrayWrapper.php:57-58 | "undefinedMethod" starts with none of the five verbs, so the pattern does not match it |
| RuntimeScenarios.CallUndefinedMethod | tests/ArrayWrapper/ArrayWrapperTest.php:28-35 | undefinedMethod() throws BadMethodCall naming the class and the method |
| RuntimeScenarios.CountOfCreated | tests/ArrayWrapper/ArrayWrapperTest.php:43-48 | a one-element wrapper counts 1 |
| RuntimeScenarios.CreateTwice | tests/ArrayWrapper/ArrayWrapperTest.php:57-63 | two created wrappers are distinct objects with equal arrays |
| RuntimeScenarios.QueryBoth | src/ArrayWrapper/ArrayWrapper.php:66-67 | is<Offset>() and has<Offset>() both report presence of the field and change nothing |
| RuntimeScenarios.SetVia | src/ArrayWrapper/ArrayWrapper.php:68-69 | set<Offset>(v) binds the field to v |
| RuntimeScenarios.GetVia | src/ArrayWrapper/ArrayWrapper.php:64-65 | get<Offset>() on a present field returns its value and changes nothing |
| RuntimeScenarios.UnsetVia | src/ArrayWrapper/ArrayWrapper.php:70-71 | unset<Offset>() removes the field |
| RuntimeScenarios.GettersSettersAccess | tests/ArrayWrapper/ArrayWrapperTest.php:72-86 | for any line-feed-free offset: is/has false, then true after set, get returns the value, false again after unset |
| RuntimeScenarios.OffsetAccess | tests/ArrayWrapper/ArrayWrapperTest.php:98-109 | offset isset/set/get/unset sequence observes false, true, "value", false |
| RuntimeScenarios.OffsetDefaultAccess | tests/ArrayWrapper/ArrayWrapperTest.php:118-125 | a missing key with a default yields the default |
| RuntimeScenarios.OffsetNotExistAccess | tests/ArrayWrapper/ArrayWrapperTest.php:134-141 | a missing key without a default throws InvalidArgument "Missing item \"[key]\"" |
| RuntimeScenarios.PropertiesAccess | tests/ArrayWrapper/ArrayWrapperTest.php:153-165 | property isset/set/get/unset sequence observes false, true, "value", false |
| RuntimeScenarios.SurfacesAgree | src/ArrayWrapper/ArrayWrapper.php:168-182 | the property surface and the offset surface leave the same array after a set and after an unset |
| PhpStanTypes.HasOffsetValueType | phpstan/ArrayWrapperMethodsClassReflectionExtension.php:44 | Yes exactly for a non-optional key of the shape, No exactly for an absent key |
| ParameterReflection.ValueParameterSignature | phpstan/ValueParameterReflection.php:14-48 | the parameter is named value, has exactly the given type, is required, not variadic, by value, with no default |
| SetReflection.SetMethodReflection.GetName | phpstan/SetMethodReflection.php:53-56 | "set" followed by the field; only the field's first character may change, and not to a lower-case letter |
| SetReflection.SetMethodReflection.GetVariants | phpstan/SetMethodReflection.php:63-76 | one non-variadic variant returning void, with one parameter of the field's type |
| SetReflection.SetNameParsesBack | phpstan/SetMethodReflection.php:53-56 | the setter's name parses as the set verb with offset ucfirst(field), and leads back to the field exactly when the field does not start upper-case |
| SetReflection.SetMethodFlags | phpstan/SetMethodReflection.php:28-106 | public, non-static, non-private, with side effects, not deprecated, final or internal, no throw type, no doc comment, its own prototype |
| SetReflection.SetMethodParameter | phpstan/SetMethodReflection.php:63-76 | the only parameter is a required by-value value of the field's type |
| MethodsExtension.HasMethod | phpstan/ArrayWrapperMethodsClassReflectionExtension.php:19-48 | true exactly when the name matches and its field is a definitely present key of the TInnerArray constant array shape |
| MethodsExtension.GetMethod | phpstan/ArrayWrapperMethodsClassReflectionExtension.php:50-95 | succeeds exactly when hasMethod is true; every failure is the message-less InvalidArgumentException |
| MethodsExtension.GetMethodDescribesField | phpstan/ArrayWrapperMethodsClassReflectionExtension.php:78-92 | the descriptor targets the parsed field, performs the verb's operation, and get/set descriptors carry the shape's type for the field |
| MethodsExtension.UnknownNameHasNoMethod | phpstan/ArrayWrapperMethodsClassReflectionExtension.php:67-70 | a name outside the pattern is no method, and getMethod throws |
| MethodsExtension.SetNameRoundTrip | phpstan/ArrayWrapperMethodsClassReflectionExtension.php:88-89 | the setter descriptor for set<S> reports the name set<S> when S does not start lower-case |
| MethodsExtension.FieldSetterRoundTrip | phpstan/ArrayWrapperMethodsClassReflectionExtension.php:88-89 | the name a field's setter descriptor reports is a method whose descriptor is that setter |
| MethodsExtension.CallTypeOfPresentField | phpstan/ArrayWrapperMethodsClassReflectionExtension.php:84-92 | on a definitely present field of type t every verb is a method: get typed t, has/is bool, set void |
| MethodsExtension.FooGetterIsString | phpstan/test.php:11 | on array{foo: string}, getFoo() is string |
| MethodsExtension.FooIsQueryIsBool | phpstan/test.php:12 | on array{foo: string}, isFoo() is bool |
| MethodsExtension.FooHasQueryIsBool | phpstan/test.php:13 | on array{foo: string}, hasFoo() is bool |
| MethodsExtension.BarIsNoMethod | phpstan/ArrayWrapperMethodsClassReflectionExtension.php:80-82 | on array{foo: string}, getBar is no method and getMethod throws |
| Agreement.StaticMethodIsNeverUndefined | src/ArrayWrapper/ArrayWrapper.php:57-60 | a method the extension accepts never makes __call throw BadMethodCall |
| Agreement.UndefinedAtRuntimeIsUnknownStatically | phpstan/ArrayWrapperMethodsClassReflectionExtension.php:67-70 | a name __call rejects is no method for the extension |
| Agreement.DescriptorPredictsCall | phpstan/ArrayWrapperMethodsClassReflectionExtension.php:84-92 | each descriptor kind predicts the runtime outcome of the same call on any array |
| Agreement.StaticGetterSucceeds | phpstan/ArrayWrapperMethodsClassReflectionExtension.php:84-85 | on an array holding every required key, a statically known getter returns the stored value |
| Agreement.UnsetThenStaticGetterThrows | phpstan/ArrayWrapperMethodsClassReflectionExtension.php:90-91 | unset<Offset> and get<Offset> are both methods for a required key, yet after the unset the getter throws |

## Left out

- Runtime.ArrayWrapper.Call: requires at least one argument for a set-verb name. PHP only emits a warning and stores null when `$arguments[0]` is missing.
- Runtime.Dispatch: same requirement as `Call`, for the same reason.
- Runtime.ArrayWrapper.MagicGet: requires the key to be present. On a missing key PHP emits a warning and returns null; warnings are not modelled.
- Runtime.ArrayWrapper.SetArray: returns nothing, whereas PHP's `setArray` returns `$this` for chaining. The only caller is the constructor, which ignores the result.
- Keys are strings only. PHP's normalisation of integer-like string keys to integers and the `(string)` casts of int offsets are not modelled.
- The insertion order of the PHP array is not modelled, because a `map` has no order. Nothing in the core depends on the order.
- Array values are an arbitrary type `V`. PHP's dynamic typing is not modelled.
- The host analyser is reduced to values: `ClassReflection`, template type maps, constant array shapes and `TrinaryLogic`. How PHPStan computes them is not part of this model.
- `GetMethodReflection`, `HasMethodReflection` and `UnsetMethodReflection` are not part of this model. Their sources are not available, so they are tags carrying their constructor arguments.
- MethodsExtension.MethodReflection.CallType: gives no type for the unsetter, because its reflection class is not part of this model. The bool type of has/is comes from the extension's type test.
- `SetMethodReflection::getVariants` builds empty `TemplateTypeMap`s. They are modelled as empty maps, without PHPStan's `TemplateTypeMap` behaviour.
- The `ArrayAccess`, `Countable` and magic-method plumbing of PHP is not modelled. Each surface is an explicit method (`OffsetGet`, `MagicGet`, `Call`, ...).
- `offsetGet`'s `func_num_args() > 1` check is modelled by an `Option` default. A passed `null` default is `Some`.
- testConstructor is left out: it checks with a PHPUnit mock that the constructor calls `setArray`. The model's constructor calls `SetArray`, but a call expectation cannot be stated as a contract.
- `lcfirst`/`ucfirst` are the locale-independent ASCII versions of PHP 8.2 and later. Locale-dependent case mapping in older PHP is not modelled.
