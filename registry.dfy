/** The static side of `Enum`: the process-wide `$constantsCache`, filled by
    `getConstants()` only after `checkConstantsDefaultValuesAreStrings()`
    accepts a class's constants, and the static entry points that read it. */
module Registry {
  import opened EnumValues
  import Resolution

  /** What `getConstants()` yields for a class whose declared constants are
      `decl`: the constants themselves when every value is a string, otherwise
      the definition error naming the first offending constant. */
  function Validated(key: ClassKey, decl: Decl): (r: Result<Table>)
    ensures r.Ok? <==> AllStrings(decl)
    ensures r.Ok? ==> r.value == decl
    ensures r.Err? ==> exists i :: 0 <= i < |decl| && !decl[i].1.Str? && r.error == InvalidConstant(decl[i].0, key)
  {
    if decl == [] then Ok([])
    else if !decl[0].1.Str? then Err(InvalidConstant(decl[0].0, key))
    else
      match Validated(key, decl[1..])
      case Ok(_) => Ok(decl)
      case Err(e) => Err(e)
  }

  /** The error always names the FIRST non-string constant. */
  lemma {:induction false} ValidatedNamesFirst(key: ClassKey, decl: Decl, i: nat)
    requires i < |decl| && !decl[i].1.Str?
    requires forall j :: 0 <= j < i ==> decl[j].1.Str?
    ensures Validated(key, decl) == Err(InvalidConstant(decl[i].0, key))
  {
    if i > 0 {
      ValidatedNamesFirst(key, decl[1..], i - 1);
    }
  }

  /** The cache after `getConstants()` returned `r` for `key`. */
  ghost function Remembered(cache: map<ClassKey, Table>, key: ClassKey, r: Result<Table>): (c: map<ClassKey, Table>)
    ensures c.Keys == if r.Ok? then cache.Keys + {key} else cache.Keys
    ensures forall k :: k in cache && k != key ==> c[k] == cache[k]
    ensures r.Ok? ==> c[key] == r.value
    ensures r.Err? ==> c == cache
  {
    if r.Ok? then cache[key := r.value] else cache
  }

  /** The abstract base class's static state. `classes` stands for the
      program's class declarations that reflection reads; `cache` is
      `self::$constantsCache`. */
  class Enum {
    const classes: map<ClassKey, Decl>
    var cache: map<ClassKey, Table>

    /** Every cached table is the validated declaration of its class. */
    ghost predicate Valid()
      reads this
    {
      (forall k :: k in classes ==> DistinctNames(classes[k])) &&
      (forall k :: k in cache ==> k in classes && Validated(k, classes[k]) == Ok(cache[k]))
    }

    constructor (classes: map<ClassKey, Decl>)
      requires forall k :: k in classes ==> DistinctNames(classes[k])
      ensures Valid()
      ensures this.classes == classes && cache == map[]
    {
      this.classes := classes;
      cache := map[];
    }

    /** `checkConstantsDefaultValuesAreStrings()`: `None` when every value is
        a string, else the error for the first constant that is not. */
    static method CheckConstantsDefaultValuesAreStrings(key: ClassKey, decl: Decl) returns (err: Option<Error>)
      ensures err.None? <==> AllStrings(decl)
      ensures err.Some? ==> Validated(key, decl) == Err(err.value)
    {
      for i := 0 to |decl|
        invariant forall j :: 0 <= j < i ==> decl[j].1.Str?
      {
        if !decl[i].1.Str? {
          ValidatedNamesFirst(key, decl, i);
          return Some(InvalidConstant(decl[i].0, key));
        }
      }
      return None;
    }

    /** `getConstants()` for class `key`. A valid class is cached on first
        access and later accesses read the same table; an invalid class is
        never cached, so every access fails again. */
    method GetConstants(key: ClassKey) returns (r: Result<Table>)
      requires Valid() && key in classes
      modifies this
      ensures Valid()
      ensures r == Validated(key, classes[key])
      ensures cache == Remembered(old(cache), key, r)
      ensures key in old(cache) ==> cache == old(cache) && r == Ok(old(cache)[key])
      ensures r.Err? ==> key !in cache
      ensures forall k :: k in old(cache) ==> k in cache && cache[k] == old(cache)[k]
    {
      if key !in cache {
        var constants := classes[key];
        var err := CheckConstantsDefaultValuesAreStrings(key, constants);
        if err.Some? {
          return Err(err.value);
        }
        var table: Table := constants;
        cache := cache[key := table];
      }
      r := Ok(cache[key]);
    }

    /** `Key::Name($arg)` through `__callStatic`. */
    method CallStatic(key: ClassKey, name: Name, arg: Mixed) returns (r: Result<Instance>)
      requires Valid() && key in classes
      modifies this
      ensures Valid()
      ensures r == Resolution.Construct(Validated(key, classes[key]), name, arg)
      ensures cache == Remembered(old(cache), key, Validated(key, classes[key]))
    {
      var constants := GetConstants(key);
      r := Resolution.Construct(constants, name, arg);
    }

    /** `Key::valueOfWithData($x, $data, $default)` */
    method ValueOfWithData(key: ClassKey, x: Option<string>, data: Mixed, default: Option<Instance>) returns (r: Result<Instance>)
      requires Valid() && key in classes
      modifies this
      ensures Valid()
      ensures r == Resolution.ValueOfWithData(Validated(key, classes[key]), x, data, default)
      ensures cache == Remembered(old(cache), key, Validated(key, classes[key]))
    {
      var constants := GetConstants(key);
      r := Resolution.ValueOfWithData(constants, x, data, default);
    }

    /** `Key::valueOf($x, $default)` */
    method ValueOf(key: ClassKey, x: Option<string>, default: Option<Instance>) returns (r: Result<Instance>)
      requires Valid() && key in classes
      modifies this
      ensures Valid()
      ensures r == Resolution.ValueOf(Validated(key, classes[key]), x, default)
      ensures cache == Remembered(old(cache), key, Validated(key, classes[key]))
    {
      r := ValueOfWithData(key, x, Null, default);
    }

    /** `Key::values()`: one instance per declared constant, in order, each
        with its own discriminant as payload. */
    method Values(key: ClassKey) returns (r: Result<seq<Instance>>)
      requires Valid() && key in classes
      modifies this
      ensures Valid()
      ensures r.Err? <==> !AllStrings(classes[key])
      ensures r.Err? ==> Validated(key, classes[key]) == Err(r.error)
      ensures r.Ok? ==> |r.value| == |classes[key]|
      ensures r.Ok? ==> forall i :: 0 <= i < |r.value| ==>
                r.value[i] == Instance(classes[key][i].1.s, classes[key][i].1)
      ensures cache == Remembered(old(cache), key, Validated(key, classes[key]))
    {
      var constants := GetConstants(key);
      match constants
      case Err(e) =>
        r := Err(e);
      case Ok(t) =>
        var vs := Resolution.InstancesOf(t);
        r := Ok(vs);
    }
  }
}
