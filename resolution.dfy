/** The resolution protocol of `Enum`: named construction (`__callStatic`),
    lookup by discriminant with a default (`valueOf`, `valueOfWithData`) and
    the list of all instances (`values`). Every operation receives the outcome
    of `getConstants()` for the class, so a definition error reaches it as an
    `Err` and is passed on unchanged. */
module Resolution {
  import opened EnumValues

  /** Position of the constant called `name` (`array_key_exists`), or `|t|`. */
  function FirstWithName(t: Decl, name: Name): (i: nat)
    ensures i <= |t|
    ensures forall j :: 0 <= j < i ==> t[j].0 != name
    ensures i < |t| ==> t[i].0 == name
  {
    if t == [] then 0
    else if t[0].0 == name then 0
    else 1 + FirstWithName(t[1..], name)
  }

  /** Position of the first constant whose value is `v` (`array_search` under
      strict comparison), or `|t|`. */
  function FirstWithValue(t: Decl, v: string): (i: nat)
    ensures i <= |t|
    ensures forall j :: 0 <= j < i ==> t[j].1 != Str(v)
    ensures i < |t| ==> t[i].1 == Str(v)
  {
    if t == [] then 0
    else if t[0].1 == Str(v) then 0
    else 1 + FirstWithValue(t[1..], v)
  }

  predicate IsName(t: Decl, name: Name)
  {
    exists i :: 0 <= i < |t| && t[i].0 == name
  }

  predicate IsValue(t: Decl, v: string)
  {
    exists i :: 0 <= i < |t| && t[i].1 == Str(v)
  }

  /** `__callStatic($name, [$arg])`: the instance for constant `name`, whose
      payload is `arg`, or the constant's own value when `arg` is null or
      absent. */
  function Construct(consts: Result<Table>, name: Name, arg: Mixed): (r: Result<Instance>)
    ensures consts.Err? ==> r == Err(consts.error)
    ensures consts.Ok? ==> (r.Err? <==> !IsName(consts.value, name))
    ensures consts.Ok? && r.Err? ==> r.error == IllegalArgument(name)
    ensures r.Ok? ==> consts.Ok? && (name, Str(Type(r.value))) in consts.value
    ensures r.Ok? ==> r.value.value != Null
    ensures r.Ok? ==> Let(r.value) == (if arg == Null then Str(Type(r.value)) else arg)
  {
    match consts
    case Err(e) => Err(e)
    case Ok(t) =>
      var i := FirstWithName(t, name);
      if i < |t| then Ok(Instance(t[i].1.s, if arg == Null then t[i].1 else arg))
      else Err(IllegalArgument(name))
  }

  /** Named construction of a declared constant: its discriminant is the
      constant's string, its payload the argument or else that string. */
  lemma ConstructDeclared(t: Table, i: nat, arg: Mixed)
    requires DistinctNames(t) && i < |t|
    ensures Construct(Ok(t), t[i].0, arg) == Ok(Instance(t[i].1.s, if arg == Null then t[i].1 else arg))
    ensures Type(Construct(Ok(t), t[i].0, arg).value) == t[i].1.s
    ensures ToString(Construct(Ok(t), t[i].0, arg).value) == t[i].1.s
    ensures Let(Construct(Ok(t), t[i].0, arg).value) == if arg == Null then t[i].1 else arg
  {
    var k := FirstWithName(t, t[i].0);
    assert k == i;
  }

  /** Two payloads, one variant: the discriminants agree. */
  lemma ConstructTypeIgnoresPayload(t: Table, name: Name, a: Mixed, b: Mixed)
    requires IsName(t, name)
    ensures Construct(Ok(t), name, a).Ok? && Construct(Ok(t), name, b).Ok?
    ensures Type(Construct(Ok(t), name, a).value) == Type(Construct(Ok(t), name, b).value)
  {
  }

  /** `i` is the first position, in declaration order, holding value `v`. */
  predicate FirstMatch(t: Decl, v: string, i: int)
  {
    0 <= i < |t| && t[i].1 == Str(v) && forall j :: 0 <= j < i ==> t[j].1 != Str(v)
  }

  /** The name `valueOfWithData` hands to `__callStatic` for the discriminant
      `x` (`None` is PHP's null, which strict `array_search` never matches):
      the constant whose value is `x`; else the constant whose value is the
      default's discriminant; else `x` itself. */
  function ResolvedName(t: Table, x: Option<string>, default: Option<Instance>): (r: Option<Name>)
    ensures x.Some? && IsValue(t, x.value) ==>
              exists i :: FirstMatch(t, x.value, i) && r == Some(t[i].0)
    ensures !(x.Some? && IsValue(t, x.value)) && default.Some? && IsValue(t, default.value.discriminant) ==>
              exists i :: FirstMatch(t, default.value.discriminant, i) && r == Some(t[i].0)
    ensures !(x.Some? && IsValue(t, x.value)) && !(default.Some? && IsValue(t, default.value.discriminant)) ==>
              r == x
  {
    var i := if x.Some? then FirstWithValue(t, x.value) else |t|;
    if i < |t| then Some(t[i].0)
    else if default.Some? && FirstWithValue(t, default.value.discriminant) < |t| then
      Some(t[FirstWithValue(t, default.value.discriminant)].0)
    else x
  }

  /** `valueOfWithData($x, $data, $default)` */
  function ValueOfWithData(consts: Result<Table>, x: Option<string>, data: Mixed, default: Option<Instance>): (r: Result<Instance>)
    ensures consts.Err? ==> r == Err(consts.error)
    ensures r.Ok? ==> Let(r.value) == (if data == Null then Str(Type(r.value)) else data)
    ensures r.Err? && consts.Ok? ==>
              !(x.Some? && IsValue(consts.value, x.value)) &&
              r.error == (if x.Some? then IllegalArgument(x.value) else NullMethodName)
  {
    match consts
    case Err(e) => Err(e)
    case Ok(t) =>
      match ResolvedName(t, x, default)
      case None => Err(NullMethodName)
      case Some(name) => Construct(consts, name, data)
  }

  /** `valueOf($x, $default)`: `valueOfWithData` without data. */
  function ValueOf(consts: Result<Table>, x: Option<string>, default: Option<Instance>): (r: Result<Instance>)
    ensures r == ValueOfWithData(consts, x, Null, default)
  {
    ValueOfWithData(consts, x, Null, default)
  }

  /** Resolution by a declared discriminant gives what named construction of
      that constant gives, whatever the default. */
  lemma ValueOfWithDataByValue(t: Table, i: nat, data: Mixed, default: Option<Instance>)
    requires DistinctNames(t) && i < |t|
    ensures ValueOfWithData(Ok(t), Some(t[i].1.s), data, default) == Construct(Ok(t), t[i].0, data)
    ensures ValueOfWithData(Ok(t), Some(t[i].1.s), data, default)
         == Ok(Instance(t[i].1.s, if data == Null then t[i].1 else data))
  {
    var k := FirstWithValue(t, t[i].1.s);
    ConstructDeclared(t, k, data);
    ConstructDeclared(t, i, data);
  }

  /** `valueOf(N)` equals `N()`. */
  lemma ValueOfRoundTrip(t: Table, i: nat, default: Option<Instance>)
    requires DistinctNames(t) && i < |t|
    ensures ValueOf(Ok(t), Some(t[i].1.s), default) == Construct(Ok(t), t[i].0, Null)
    ensures Type(ValueOf(Ok(t), Some(t[i].1.s), default).value) == t[i].1.s
  {
    ValueOfWithDataByValue(t, i, Null, default);
  }

  /** The default path: `x` is null or no declared value, the default's
      discriminant is. The result is a new instance of the default's variant
      carrying the passed data (or its own discriminant), not the default's
      payload. */
  lemma ValueOfWithDataByDefault(t: Table, x: Option<string>, data: Mixed, d: Instance)
    requires DistinctNames(t)
    requires (x.None? || !IsValue(t, x.value)) && IsValue(t, d.discriminant)
    ensures ValueOfWithData(Ok(t), x, data, Some(d))
         == Ok(Instance(d.discriminant, if data == Null then Str(d.discriminant) else data))
  {
    var j := FirstWithValue(t, d.discriminant);
    ConstructDeclared(t, j, data);
  }

  /** The name path: neither `x` nor the default's discriminant is a declared
      value, so `x` is taken as a constant name. */
  lemma ValueOfWithDataByName(t: Table, x: string, data: Mixed, default: Option<Instance>)
    requires !IsValue(t, x)
    requires default.None? || !IsValue(t, default.value.discriminant)
    ensures ValueOfWithData(Ok(t), Some(x), data, default) == Construct(Ok(t), x, data)
    ensures ValueOfWithData(Ok(t), Some(x), data, default).Err? <==> !IsName(t, x)
  {
    assert FirstWithValue(t, x) == |t|;
  }

  /** A null discriminant that no default resolves is dispatched as a null
      method name, which PHP refuses. */
  lemma ValueOfWithDataNullUnresolved(t: Table, data: Mixed, default: Option<Instance>)
    requires default.None? || !IsValue(t, default.value.discriminant)
    ensures ValueOfWithData(Ok(t), None, data, default) == Err(NullMethodName)
  {
  }

  /** Neither a declared value nor a declared name, and no default: the
      request is an illegal argument. */
  lemma UnknownWithoutDefault(t: Table, x: string, data: Mixed)
    requires !IsValue(t, x) && !IsName(t, x)
    ensures ValueOfWithData(Ok(t), Some(x), data, None) == Err(IllegalArgument(x))
  {
    ValueOfWithDataByName(t, x, data, None);
  }

  /** An unknown discriminant with a default built by the same data gives back
      an instance equal to that default. */
  lemma FallbackGivesDefault(t: Table, x: Option<string>, name: Name, data: Mixed)
    requires DistinctNames(t)
    requires (x.None? || !IsValue(t, x.value)) && IsName(t, name)
    ensures Construct(Ok(t), name, data).Ok?
    ensures ValueOfWithData(Ok(t), x, data, Some(Construct(Ok(t), name, data).value))
         == Construct(Ok(t), name, data)
  {
    var i := FirstWithName(t, name);
    ConstructDeclared(t, i, data);
    var d := Construct(Ok(t), name, data).value;
    assert t[i].1 == Str(d.discriminant);
    ValueOfWithDataByDefault(t, x, data, d);
  }

  /** The loop of `values()`: one zero-argument construction per constant, in
      declaration order. */
  method InstancesOf(t: Table) returns (vs: seq<Instance>)
    requires DistinctNames(t)
    ensures |vs| == |t|
    ensures forall i :: 0 <= i < |t| ==> Construct(Ok(t), t[i].0, Null) == Ok(vs[i])
    ensures forall i :: 0 <= i < |t| ==> vs[i] == Instance(t[i].1.s, t[i].1)
  {
    vs := [];
    for k := 0 to |t|
      invariant |vs| == k
      invariant forall i :: 0 <= i < k ==> Construct(Ok(t), t[i].0, Null) == Ok(vs[i])
      invariant forall i :: 0 <= i < k ==> vs[i] == Instance(t[i].1.s, t[i].1)
    {
      var e := Construct(Ok(t), t[k].0, Null);
      ConstructDeclared(t, k, Null);
      vs := vs + [e.value];
    }
  }
}
