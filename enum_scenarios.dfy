/** The scenarios of the repository's test suite, replayed against the model
    with the three test enums `StandardTestEnum`, `ValueTestEnum` and
    `InvalidTestEnum`. */
module EnumScenarios {
  import opened EnumValues
  import Resolution
  import Registry

  /** `const TYPE_A = "1"; const TYPE_B = "2";` */
  function StandardConstants(): Decl
  {
    [("TYPE_A", Str("1")), ("TYPE_B", Str("2"))]
  }

  /** `const TYPE_A = 1; const TYPE_B = 2;` */
  function InvalidConstants(): Decl
  {
    [("TYPE_A", Other(1)), ("TYPE_B", Other(2))]
  }

  method NewRegistry() returns (e: Registry.Enum)
    ensures fresh(e) && e.Valid() && e.cache == map[]
    ensures e.classes == map["StandardTestEnum" := StandardConstants(), "ValueTestEnum" := StandardConstants(),
                             "InvalidTestEnum" := InvalidConstants()]
  {
    e := new Registry.Enum(map["StandardTestEnum" := StandardConstants(), "ValueTestEnum" := StandardConstants(),
                               "InvalidTestEnum" := InvalidConstants()]);
  }

  /** Two constructions of one variant are equal; other variants differ. */
  method Standard()
  {
    var e := NewRegistry();
    Resolution.ConstructDeclared(StandardConstants(), 0, Null);
    Resolution.ConstructDeclared(StandardConstants(), 1, Null);
    var a := e.CallStatic("StandardTestEnum", "TYPE_A", Null);
    var a2 := e.CallStatic("StandardTestEnum", "TYPE_A", Null);
    var b := e.CallStatic("StandardTestEnum", "TYPE_B", Null);
    assert a == a2 == Ok(Instance("1", Str("1")));
    assert b == Ok(Instance("2", Str("2"))) && a != b;
  }

  /** A payload does not change the discriminant. */
  method SameTypeForDifferentValues()
  {
    var e := NewRegistry();
    Resolution.ConstructDeclared(StandardConstants(), 0, Str("foo"));
    Resolution.ConstructDeclared(StandardConstants(), 0, Str("bar"));
    var foo := e.CallStatic("ValueTestEnum", "TYPE_A", Str("foo"));
    var bar := e.CallStatic("ValueTestEnum", "TYPE_A", Str("bar"));
    assert Type(foo.value) == Type(bar.value) == "1";
  }

  /** A non-string constant is a definition error on first use, and again later. */
  method NonStringConstants()
  {
    var e := NewRegistry();
    Registry.ValidatedNamesFirst("InvalidTestEnum", InvalidConstants(), 0);
    var bad := e.CallStatic("InvalidTestEnum", "TYPE_B", Null);
    assert bad == Err(InvalidConstant("TYPE_A", "InvalidTestEnum"));
    var badAgain := e.CallStatic("InvalidTestEnum", "TYPE_A", Null);
    assert badAgain == bad && "InvalidTestEnum" !in e.cache;
  }

  /** An undeclared name is an illegal argument. */
  method UnknownName()
  {
    var e := NewRegistry();
    assert !Resolution.IsName(StandardConstants(), "DOESNT_EXISTS");
    var missing := e.CallStatic("ValueTestEnum", "DOESNT_EXISTS", Null);
    assert missing == Err(IllegalArgument("DOESNT_EXISTS"));
  }

  /** Lookup by discriminant, with and without data. */
  method FromValue()
  {
    var e := NewRegistry();
    Resolution.ValueOfWithDataByValue(StandardConstants(), 1, Null, None);
    Resolution.ValueOfWithDataByValue(StandardConstants(), 1, Str("data"), None);
    var byValue := e.ValueOf("ValueTestEnum", Some("2"), None);
    assert byValue == Ok(Instance("2", Str("2")));
    var withData := e.ValueOfWithData("ValueTestEnum", Some("2"), Str("data"), None);
    assert withData == Ok(Instance("2", Str("data")));
  }

  /** An unknown discriminant without a default is an illegal argument. */
  method UnknownValue()
  {
    var e := NewRegistry();
    assert !Resolution.IsValue(StandardConstants(), "DOESNT_EXISTS");
    assert !Resolution.IsName(StandardConstants(), "DOESNT_EXISTS");
    Resolution.UnknownWithoutDefault(StandardConstants(), "DOESNT_EXISTS", Str("data"));
    var unknown := e.ValueOfWithData("ValueTestEnum", Some("DOESNT_EXISTS"), Str("data"), None);
    assert unknown == Err(IllegalArgument("DOESNT_EXISTS"));
  }

  /** The default path builds the default's variant with the passed data: it
      equals the default only when the default carries that same data. */
  method DefaultFallback()
  {
    var e := NewRegistry();
    var dflt := Instance("2", Str("anyValue"));
    assert !Resolution.IsValue(StandardConstants(), "DOESNT_EXISTS");
    assert StandardConstants()[1].1 == Str("2");
    Resolution.ValueOfWithDataByDefault(StandardConstants(), Some("DOESNT_EXISTS"), Str("anyValue"), dflt);
    Resolution.ValueOfWithDataByDefault(StandardConstants(), Some("DOESNT_EXISTS"), Null, dflt);
    var same := e.ValueOfWithData("ValueTestEnum", Some("DOESNT_EXISTS"), Str("anyValue"), Some(dflt));
    assert same == Ok(dflt);
    var rebuilt := e.ValueOf("ValueTestEnum", Some("DOESNT_EXISTS"), Some(dflt));
    assert rebuilt == Ok(Instance("2", Str("2"))) && rebuilt != Ok(dflt);
  }

  /** A null discriminant resolves through the default, and without one ends
      in PHP's error for a null method name. */
  method NullDiscriminant()
  {
    var e := NewRegistry();
    var dflt := Instance("2", Str("2"));
    assert StandardConstants()[1].1 == Str("2");
    Resolution.ValueOfWithDataByDefault(StandardConstants(), None, Null, dflt);
    var viaDefault := e.ValueOf("StandardTestEnum", None, Some(dflt));
    assert viaDefault == Ok(dflt);
    Resolution.ValueOfWithDataNullUnresolved(StandardConstants(), Null, None);
    var unresolved := e.ValueOf("StandardTestEnum", None, None);
    assert unresolved == Err(NullMethodName);
  }

  /** `values()` lists the variants in declaration order. */
  method AllValues()
  {
    var e := NewRegistry();
    var all := e.Values("StandardTestEnum");
    assert all.Ok? && |all.value| == 2;
    assert all.value[0] == Instance("1", Str("1")) && all.value[1] == Instance("2", Str("2"));
  }
}
