# php-enum in Dafny

A model of the abstract `Enum` base class of the php-enum library. A concrete enum
class declares string constants (`const TYPE_A = "1";`). The base class turns them
into variants:

- **Variant registry.** `getConstants()` reads a class's constants and checks that
  every value is a string. If one is not, it throws `InvalidEnumConstantDefaultValue`
  naming the first offending constant. Otherwise it stores the table in the static
  `$constantsCache`, keyed by class.
- **Instances and resolution.**
  - `Cls::NAME($data)` (through `__callStatic`) builds an immutable instance whose
    discriminant is the constant's value. Its payload is `$data`, or the discriminant
    when `$data` is null or missing.
  - `valueOf` and `valueOfWithData` resolve a discriminant in three steps: the
    constant with that value, then the default's variant, then the input taken as
    a constant name.
  - `values()` lists one instance per constant, in declaration order.

Modules:

- `EnumValues` (enum_values.dfy): PHP values (`Mixed`), declared constants (`Decl`),
  the validated table (`Table`), instances, the errors, and the accessors `type()`,
  `let()` and `__toString()`.
- `Resolution` (resolution.dfy): the pure resolution protocol.
  - Each operation takes the outcome of `getConstants()` as a `Result`, so a
    definition error passes through unchanged.
  - `values()`'s loop is the method `InstancesOf`.
- `Registry` (registry.dfy): the spec function `Validated` and the class `Enum`.
  - `Enum` holds the program's class declarations (`classes`, which stands in for
    reflection) and the cache (`cache`).
  - Its methods are `getConstants()`, the validation loop, and the static entry
    points, which read the cache and update it.
- `EnumScenarios` (enum_scenarios.dfy): the repository's test cases, replayed against
  the model as client methods.

## Model

| member | source | states |
|---|---|---|
| EnumValues.Type | src/Enum.php:58-61 | `type()` returns the discriminant the instance was built with; the instance is exactly that discriminant plus its payload. |
| EnumValues.ToString | src/Enum.php:42-45 | `__toString()` returns the same string as `type()`. |
| EnumValues.Let | src/Enum.php:50-53 | `let()` never returns null. It returns the payload when the payload is not null, otherwise the discriminant. |
| Resolution.FirstWithName | src/Enum.php:75 | Finds the first constant with the given name, or reports that no constant has that name. |
| Resolution.FirstWithValue | src/Enum.php:111 | `array_search`: finds the first constant in declaration order whose value is the given string, or reports that none has it. |
| Resolution.Construct | src/Enum.php:71-84 | A definition error from `getConstants()` propagates unchanged. Otherwise construction fails exactly when the name is undeclared, and the error is `IllegalArgument(name)`. On success the instance's discriminant is the named constant's value, the stored payload is never null, and `let()` gives the argument or else the discriminant. |
| Resolution.ConstructDeclared | src/Enum.php:42-78 | For a declared constant N, `N(arg)` has `type()` and `__toString()` equal to N's string, and `let()` equal to `arg ?? N's string`. |
| Resolution.ConstructTypeIgnoresPayload | tests/EnumTest.php:22-29 | Two constructions of one variant with different payloads have the same `type()`. |
| Resolution.ResolvedName | src/Enum.php:111-117 | The name handed to `__callStatic` is chosen in three steps: (1) the FIRST constant in declaration order whose value is x; otherwise (2) the first constant whose value is the default's discriminant; otherwise (3) x itself, which may be null. A null x never matches a value. |
| Resolution.ValueOfWithData | src/Enum.php:108-118 | The discriminant x may be a string or null. A definition error propagates unchanged. A successful result carries `data ?? discriminant`. A failure means x is no declared value; the error is `IllegalArgument(x)` for a string x and the null-method-name error for a null x. |
| Resolution.ValueOf | src/Enum.php:94-97 | `valueOf(x, def)` is `valueOfWithData(x, null, def)`, for a string or null x. |
| Resolution.ValueOfWithDataByValue | src/Enum.php:110-117 | For a declared discriminant v, whatever the default, `valueOfWithData(v, d)` equals the named construction `N(d)` of v's constant, i.e. `Instance(v, d ?? v)`. |
| Resolution.ValueOfRoundTrip | tests/EnumTest.php:77-84 | `valueOf(N's value)` equals `N()`. |
| Resolution.ValueOfWithDataByDefault | src/Enum.php:113-117 | If x is null or no declared value, and the default's discriminant is a declared value, the result is a new instance of the default's variant. Its payload is the passed data, or the discriminant when the data is null, never the default's payload. |
| Resolution.ValueOfWithDataByName | src/Enum.php:117 | If neither x nor the default's discriminant is a declared value, x is used as a constant name. The result is `Cls::x(data)`, and it fails exactly when x is no declared name. |
| Resolution.ValueOfWithDataNullUnresolved | src/Enum.php:117 | A null x with no default, or a default whose discriminant is not declared, reaches `static::{null}(...)`. The result is the null-method-name error. |
| Resolution.UnknownWithoutDefault | tests/EnumTest.php:96-101 | An x that is neither a declared value nor a declared name, with no default, gives `IllegalArgument(x)`. |
| Resolution.FallbackGivesDefault | tests/EnumTest.php:103-120 | An unknown x with a default built from the same data returns an instance equal to the default. |
| Resolution.InstancesOf | src/Enum.php:127-131 | The loop of `values()` returns as many instances as constants, in declaration order. Element i equals `N_i()`, whose discriminant and payload are both the i-th declared string. |
| Registry.Validated | src/Enum.php:144-147 | The result is Ok exactly when every declared value is a string, and then it is the declared table unchanged. Otherwise it names a non-string constant and the class. |
| Registry.ValidatedNamesFirst | src/Enum.php:158-165 | The definition error names the first non-string constant in declaration order. |
| Registry.Enum.constructor | src/Enum.php:15 | The cache starts empty. |
| Registry.Enum.CheckConstantsDefaultValuesAreStrings | src/Enum.php:158-165 | Returns no error exactly when every value is a string. Otherwise it returns `Validated`'s error, which names the first offending constant. |
| Registry.Enum.GetConstants | src/Enum.php:141-151 | Returns `Validated` of the class's constants. The class is cached only after validation succeeds, so an invalid class is never cached. A cached class is returned from the cache unchanged. Entries for other classes are never changed or removed. The invariant `Valid` (every cached table is its class's validated constants) is kept. |
| Registry.Enum.CallStatic | src/Enum.php:71-84 | `Cls::NAME(arg)` is `Construct` applied to the outcome of `getConstants()`, with that call's effect on the cache. |
| Registry.Enum.ValueOfWithData | src/Enum.php:108-118 | `Cls::valueOfWithData` (string or null discriminant) is the pure `ValueOfWithData` applied to the outcome of `getConstants()`, with that call's effect on the cache. |
| Registry.Enum.ValueOf | src/Enum.php:94-97 | `Cls::valueOf` (string or null discriminant) is the pure `ValueOf` applied to the outcome of `getConstants()`, with that call's effect on the cache. |
| Registry.Enum.Values | src/Enum.php:125-134 | `Cls::values()` fails exactly when a constant is not a string, and then with the definition error. Otherwise it returns one instance per constant, in order, each `Instance(v_i, v_i)`. |

The default fallback builds a new instance; it does not return the default:

- The test names at tests/EnumTest.php:103 and :113 say "the default enum is returned".
- The code at src/Enum.php:113-117 instead looks up the default's variant and builds a new
  instance of it from `$data`. When `$data` is null, the payload is the variant's own
  discriminant.
- Both tests build the default from the same data they pass, so they cannot tell the two
  behaviours apart.
- The model follows the code. `Resolution.ValueOfWithDataByDefault` and
  `EnumScenarios.DefaultFallback` show that `valueOf("DOESNT_EXISTS", TYPE_B("anyValue"))`
  is `TYPE_B()`, not the default.

## Left out

- Reflection (`ReflectionClass::getConstants`, inherited constants, `static::class`) is replaced by the map `Registry.Enum.classes` from class key to declared constants. Constant names in one class are assumed distinct, as PHP enforces. A `ReflectionException` cannot arise for `static::class` and is not modelled.
- PHP dynamic dispatch is not modelled: the model always performs named construction. In PHP, `Cls::{$name}()` reaches `__callStatic` only when `$name` names no method that the calling scope can see. Method names are case-insensitive, and what is visible depends on where the call is made:
  - From any scope, a constant named after a public static method (`VALUES`, `VALUEOF`, `VALUEOFWITHDATA`, `__CALLSTATIC`) calls that method. A constant named after an instance method (`TYPE`, `LET`, `__TOSTRING`) gets a refused static call. Neither can be built by name.
  - Inside `Enum`'s own methods, the private static methods are visible too. Two calls are affected: `values()` (src/Enum.php:130), which calls `static::{$constant}()` with no argument, and `valueOfWithData` (src/Enum.php:117), which calls `static::{…}($data)` with one.
    - A constant named `GETCONSTANTS`: `values()` appends the constants array instead of an instance. `valueOfWithData` returns that array where `self` is declared, which is a TypeError.
    - A constant named `CHECKCONSTANTSDEFAULTVALUESARESTRINGS`: `values()` ends in an argument-count error. `valueOfWithData` passes `$data` as the array to check. A non-array `$data`, null included, is a TypeError. An array `$data` has its own values checked instead of the class's constants. The call then throws the definition error for `$data`, or returns null where `self` is declared, which is a TypeError.
    - A constant named `VALUES` makes `values()` call itself without end.
  - The name fallback of `valueOfWithData` (src/Enum.php:117) uses the caller's own discriminant x as the method name. The same rules apply: when x names a method visible inside `Enum`, PHP calls that method with `$data` instead of reaching `__callStatic`. For example, `valueOf("values")` and `valueOf("getConstants")` return an array where `self` is declared, which is a TypeError. `valueOf("type")` is a refused static call. For such an x the model, in `Resolution.ValueOfWithDataByName` and `Resolution.UnknownWithoutDefault`, gives `IllegalArgument(x)`.
  - From outside the class, the private names `GETCONSTANTS` and `CHECKCONSTANTSDEFAULTVALUESARESTRINGS` are not visible. There, `Cls::GETCONSTANTS()` goes to `__callStatic` and constructs normally.
- A null discriminant passed to `valueOf`/`valueOfWithData` is modelled as `None`. It resolves through the default as in PHP. When nothing resolves it, the model gives the error `NullMethodName` for PHP's runtime error on `static::{null}(...)`; the error's class and message are not modelled.
- Resolution.FirstWithValue: uses strict string equality, while `array_search` compares loosely. Numeric strings such as "1" and "01" are equal in PHP, and a null discriminant would match a constant whose value is ""; in the model a null matches no value.
- PHP object equality (`assertEquals`) and the `switch` tests rely on `__toString` coercion and loose `==`. The model uses datatype equality on (discriminant, payload). An instance does not record its class, so `StandardTestEnum::TYPE_A()` and `ValueTestEnum::TYPE_A()` are equal in the model, while PHP's `assertEquals` tells them apart by class.
- The message text of `InvalidEnumConstantDefaultValue` (src/Exception/InvalidEnumConstantDefaultValue.php) is not modelled. The error is the datatype value `InvalidConstant(constant, class)`.
- Concurrency: the library is single-threaded, so the cache needs no locking.
- `values()` re-enters `__callStatic`, which calls `getConstants()` once per constant. The model calls `getConstants()` once and constructs every instance from that table. After the first call the cache makes later calls return the same table without changing state, so the results are the same.
