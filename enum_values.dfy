/** Values handled by the abstract `Enum` base class: the constants a concrete
    enum class declares, the validated variant table built from them, and the
    immutable enum instance with its accessors `type()`, `let()` and
    `__toString()`. */
module EnumValues {

  /** A PHP value as far as `Enum` inspects it: `null`, a string, or anything
      else (int, float, bool, array, object), told apart by an opaque tag. */
  datatype Mixed = Null | Str(s: string) | Other(tag: nat)

  /** The name of a class constant, e.g. `TYPE_A`. */
  type Name = string

  /** The identity of a concrete enum class (`static::class`). */
  type ClassKey = string

  /** The constants a class declares, in declaration order. */
  type Decl = seq<(Name, Mixed)>

  predicate AllStrings(d: Decl)
  {
    forall i :: 0 <= i < |d| ==> d[i].1.Str?
  }

  /** PHP refuses two constants of the same name in one class. */
  predicate DistinctNames(d: Decl)
  {
    forall i, j :: 0 <= i < j < |d| ==> d[i].0 != d[j].0
  }

  /** A variant table: declared constants whose values are all strings. */
  type Table = d: Decl | AllStrings(d) witness []

  /** The failures a call on an enum class ends in: the two exceptions the
      base class throws, and the runtime error PHP raises when `valueOfWithData`
      dispatches on a null name. */
  datatype Error =
    | IllegalArgument(name: string)                       // unknown variant name
    | InvalidConstant(constant: Name, enumClass: ClassKey) // non-string constant value
    | NullMethodName                                      // PHP's error for `static::{null}(...)`

  datatype Result<+T> = Ok(value: T) | Err(error: Error)

  datatype Option<+T> = None | Some(value: T)

  /** An enum instance: its discriminant (`$type`) and its payload (`$value`). */
  datatype Instance = Instance(discriminant: string, value: Mixed)

  /** `type()`: the discriminant the instance was built with. */
  function Type(e: Instance): (r: string)
    ensures e == Instance(r, e.value)
  {
    e.discriminant
  }

  /** `let()`: the payload, or the discriminant when the payload is null. */
  function Let(e: Instance): (r: Mixed)
    ensures r != Null
    ensures e.value != Null ==> r == e.value
    ensures e.value == Null ==> r == Str(Type(e))
  {
    if e.value != Null then e.value else Str(e.discriminant)
  }

  /** `__toString()`: the same string as `type()`. */
  function ToString(e: Instance): (r: string)
    ensures r == Type(e)
  {
    Type(e)
  }
}
