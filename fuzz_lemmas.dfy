/** What the generators `Fuzz` builds produce when sampled, and the construction-time failure rules. */
module FuzzLemmas {
  import opened Base
  import opened Values
  import opened Swagger
  import opened Generators
  import opened Fuzz

  // ---------------------------------------------------------------------------
  // Enums.

  predicate DeclaresEnum(p: Property) {
    || (p.LongProperty? && p.longEnum.Some?)
    || (p.IntegerProperty? && p.intEnum.Some?)
    || (p.FloatProperty? && p.floatEnum.Some?)
    || (p.DoubleProperty? && p.doubleEnum.Some?)
    || (p.StringProperty? && p.stringEnum.Some?)
  }

  function EnumSize(p: Property): nat
    requires DeclaresEnum(p)
  {
    match p
    case LongProperty(e) => |e.value|
    case IntegerProperty(e) => |e.value|
    case FloatProperty(e) => |e.value|
    case DoubleProperty(e) => |e.value|
    case StringProperty(e, _, _) => |e.value|
  }

  /** `v` is the JSON node of one of the declared enum members. */
  predicate InEnum(p: Property, v: Json)
    requires DeclaresEnum(p)
  {
    match p
    case LongProperty(e) => v.JNum? && v.n in e.value
    case IntegerProperty(e) => v.JNum? && v.n in e.value
    case FloatProperty(e) => v.JFloat? && v.code in e.value
    case DoubleProperty(e) => v.JFloat? && v.code in e.value
    case StringProperty(e, _, _) => v.JString? && v.str in e.value
  }

  /** A property with a declared enum builds only when the enum has a member,
      and then every sample is null or one of the members. */
  lemma EnumSamplesAreMembers(p: Property, env: Env, fuel: nat, s: Stream)
    requires DeclaresEnum(p)
    ensures PropertyGen(p).Ok? <==> EnumSize(p) > 0
    ensures PropertyGen(p).Ok? ==>
              Sample(PropertyGen(p).value, env, fuel, s).Drawn?
              && (Sample(PropertyGen(p).value, env, fuel, s).value == JNull
                  || InEnum(p, Sample(PropertyGen(p).value, env, fuel, s).value))
  {
    if PropertyGen(p).Ok? {
      var g := PropertyGen(p).value;
      var cs := PropertyGenAux(p).value.choices;
      assert Sample(g, env, fuel, s).Drawn?;
      SampleFits(g, env, fuel, s);
      var v := Sample(g, env, fuel, s).value;
      if v != JNull {
        assert v in cs;
        var i :| 0 <= i < |cs| && cs[i] == v;
        match p
        case LongProperty(e) => assert v.n == e.value[i];
        case IntegerProperty(e) => assert v.n == e.value[i];
        case FloatProperty(e) => assert v.code == e.value[i];
        case DoubleProperty(e) => assert v.code == e.value[i];
        case StringProperty(e, _, _) => assert v.str == e.value[i];
      }
    }
  }

  // ---------------------------------------------------------------------------
  // Lengths and sizes.

  /** A string property without an enum: bounds default to 0 and 5; a sample is
      null or a basic Latin string whose length lies within them. */
  lemma StringSamplesWithinBounds(minLength: Option<int>, maxLength: Option<int>, env: Env, fuel: nat, s: Stream)
    ensures PropertyGen(StringProperty(None, minLength, maxLength)).Ok? <==> 0 <= minLength.GetOr(0) <= maxLength.GetOr(5)
    ensures PropertyGen(StringProperty(None, minLength, maxLength)).Ok? ==>
              var d := Sample(PropertyGen(StringProperty(None, minLength, maxLength)).value, env, fuel, s);
              d.Drawn? && (d.value == JNull
                           || (d.value.JString? && minLength.GetOr(0) <= |d.value.str| <= maxLength.GetOr(5)
                               && AllBasicLatin(d.value.str)))
  {
    var p := StringProperty(None, minLength, maxLength);
    if PropertyGen(p).Ok? {
      assert PropertyGenAux(p) == StringGen(minLength.GetOr(0), maxLength.GetOr(5));
      var b: Bounds := (minLength.GetOr(0), maxLength.GetOr(5));
      DrawStringFits(b, Tail(s));
      SampleFits(PropertyGen(p).value, env, fuel, s);
    }
  }

  /** An array property whose items are not a ref: sizes default to 0 and 5; a
      sample is null or a list within them whose every element the nullable
      item generator may yield. */
  lemma ArraySamplesWithinBounds(items: Property, minItems: Option<int>, maxItems: Option<int>, env: Env, fuel: nat, s: Stream)
    requires !items.RefProperty?
    ensures (PropertyGen(ArrayProperty(items, minItems, maxItems)).Ok?
             <==> PropertyGen(items).Ok? && 0 <= minItems.GetOr(0) <= maxItems.GetOr(5))
    ensures PropertyGen(ArrayProperty(items, minItems, maxItems)).Ok?
            && Sample(PropertyGen(ArrayProperty(items, minItems, maxItems)).value, env, fuel, s).Drawn? ==>
              var v := Sample(PropertyGen(ArrayProperty(items, minItems, maxItems)).value, env, fuel, s).value;
              v == JNull
              || (v.JArray? && minItems.GetOr(0) <= |v.items| <= maxItems.GetOr(5)
                  && forall i :: 0 <= i < |v.items| ==> Fits(PropertyGen(items).value, env, fuel, v.items[i]))
  {
    var p := ArrayProperty(items, minItems, maxItems);
    if PropertyGen(p).Ok? {
      SampleFits(PropertyGen(p).value, env, fuel, s);
    }
  }

  /** A map property: a sample is null or an object of at most 4 distinct keys of
      length at most 5, each value one the nullable value generator may yield. */
  lemma MapSamplesShape(value: Property, env: Env, fuel: nat, s: Stream)
    ensures PropertyGen(MapProperty(value)).Ok? <==> PropertyGen(value).Ok?
    ensures PropertyGen(MapProperty(value)).Ok? && Sample(PropertyGen(MapProperty(value)).value, env, fuel, s).Drawn? ==>
              var v := Sample(PropertyGen(MapProperty(value)).value, env, fuel, s).value;
              v == JNull
              || (v.JObject? && |v.fields| <= 4 && DistinctKeys(v.fields)
                  && forall i :: 0 <= i < |v.fields| ==>
                       |v.fields[i].0| <= 5 && Fits(PropertyGen(value).value, env, fuel, v.fields[i].1))
  {
    if PropertyGen(MapProperty(value)).Ok? {
      SampleFits(PropertyGen(MapProperty(value)).value, env, fuel, s);
    }
  }

  /** An object property: null, or at most 4 distinct keys of length at most 5
      mapped to (non-null) strings of length at most 5. */
  lemma ObjectPropertySamplesShape(env: Env, fuel: nat, s: Stream)
    ensures PropertyGen(ObjectProperty).Ok?
    ensures Sample(PropertyGen(ObjectProperty).value, env, fuel, s).Drawn? ==>
              var v := Sample(PropertyGen(ObjectProperty).value, env, fuel, s).value;
              v == JNull
              || (v.JObject? && |v.fields| <= 4 && DistinctKeys(v.fields)
                  && forall i :: 0 <= i < |v.fields| ==>
                       |v.fields[i].0| <= 5 && v.fields[i].1.JString? && |v.fields[i].1.str| <= 5)
  {
    var g := PropertyGen(ObjectProperty).value;
    SampleFits(g, env, fuel, s);
    var d := Sample(g, env, fuel, s);
    if d.Drawn? && d.value != JNull {
      var v := d.value;
      assert Fits(Maps((0, 5), Strings((0, 5)), 4), env, fuel, v);
      forall i | 0 <= i < |v.fields|
        ensures |v.fields[i].0| <= 5 && v.fields[i].1.JString? && |v.fields[i].1.str| <= 5
      {
        assert Fits(Strings((0, 5)), env, fuel, v.fields[i].1);
      }
    }
  }

  // ---------------------------------------------------------------------------
  // References.

  /** An array property whose items are a ref ignores its size bounds: it samples
      null or one value of the referenced definition, never a list. */
  lemma ArrayOfRefSamplesOneValue(name: string, minItems: Option<int>, maxItems: Option<int>, env: Env, fuel: nat, s: Stream)
    ensures PropertyGen(ArrayProperty(RefProperty(name), minItems, maxItems)).Ok?
    ensures var d := Sample(PropertyGen(ArrayProperty(RefProperty(name), minItems, maxItems)).value, env, fuel, s);
            d.Drawn? ==>
              d.value == JNull
              || (name in env.definitions && fuel > 0 && Fits(env.definitions[name], env, fuel - 1, d.value))
  {
    assert PropertyGenAux(ArrayProperty(RefProperty(name), minItems, maxItems)) == Ok(Late(name));
    SampleFits(PropertyGen(ArrayProperty(RefProperty(name), minItems, maxItems)).value, env, fuel, s);
  }

  /** An array model whose items are a ref is the referenced definition itself,
      looked up when sampled: no list and no null. */
  lemma ArrayModelOfRefSamplesDefinition(name: string, definitions: Option<map<string, Gen>>, env: Env, fuel: nat, s: Stream)
    ensures ModelGen(ArrayModel(RefProperty(name)), definitions).Ok?
    ensures name !in env.definitions ==>
              Sample(ModelGen(ArrayModel(RefProperty(name)), definitions).value, env, fuel, s) == Failed(Dangling(name))
    ensures name in env.definitions && fuel > 0 ==>
              Sample(ModelGen(ArrayModel(RefProperty(name)), definitions).value, env, fuel, s)
              == Sample(env.definitions[name], env, fuel - 1, s)
  {
  }

  /** A `RefModel` is resolved when it is built: the table's generator, or "not defined". */
  lemma RefModelResolvedAtConstruction(name: string, table: map<string, Gen>)
    ensures name in table ==> ModelGen(RefModel(name), Some(table)) == Ok(table[name])
    ensures name !in table ==> ModelGen(RefModel(name), Some(table)) == Err(IllegalState(name + " not defined; problem parsing?"))
  {
  }

  /** A ref where only `propertyGenAux` sees it (a map's values, a query parameter's items) fails when built. */
  lemma RefInEagerPositionFails(name: string, qname: string, typ: string)
    ensures PropertyGen(MapProperty(RefProperty(name))) == Err(IllegalState(RefHandledEarlier))
    ensures ParamGen(QueryParameter(qname, typ, Some(RefProperty(name)))) == Err(IllegalState(RefHandledEarlier))
    ensures PropertyGen(ArrayProperty(MapProperty(RefProperty(name)), None, None)) == Err(IllegalState(RefHandledEarlier))
  {
    assert PropertyGen(RefProperty(name)) == Err(IllegalState(RefHandledEarlier));
    assert PropertyGenAux(MapProperty(RefProperty(name))) == Err(IllegalState(RefHandledEarlier));
    assert PropertyGenAux(ArrayProperty(MapProperty(RefProperty(name)), None, None)) == Err(IllegalState(RefHandledEarlier));
  }

  // ---------------------------------------------------------------------------
  // Object models.

  lemma {:induction false} FieldGensShape(props: seq<(string, Property)>)
    ensures FieldGens(props).Ok? <==> forall i :: 0 <= i < |props| ==> FieldGen(props[i].1).Ok?
    ensures FieldGens(props).Ok? ==>
              |FieldGens(props).value| == |props|
              && forall i :: 0 <= i < |props| ==>
                   FieldGens(props).value[i] == (props[i].0, FieldGen(props[i].1).value)
  {
    if |props| > 0 {
      FieldGensShape(props[1..]);
      assert forall i :: 1 <= i < |props| ==> props[1..][i - 1] == props[i];
    }
  }

  /** What one field of an object may hold: a ref field is a value of the
      referenced definition, with no null wrapper; any other field is null or a
      value of the property's own generator. */
  ghost predicate FieldValueFits(p: Property, env: Env, fuel: nat, v: Json) {
    if p.RefProperty? then
      p.simpleRef in env.definitions && fuel > 0 && Fits(env.definitions[p.simpleRef], env, fuel - 1, v)
    else
      v == JNull || (PropertyGenAux(p).Ok? && Fits(PropertyGenAux(p).value, env, fuel, v))
  }

  /** An object model samples an object whose keys are exactly its property names,
      each once, every value fitting its property. */
  lemma ObjectModelSamples(props: seq<(string, Property)>, definitions: Option<map<string, Gen>>, env: Env, fuel: nat, s: Stream)
    requires ModelGen(ModelImpl(Some(props)), definitions).Ok?
    ensures var d := Sample(ModelGen(ModelImpl(Some(props)), definitions).value, env, fuel, s);
            d.Drawn? ==>
              d.value.JObject? && KeysOf(d.value.fields) == KeysOf(props) && DistinctKeys(d.value.fields)
              && forall i :: 0 <= i < |d.value.fields| ==> DrawnByProperty(props, env, fuel, d.value.fields[i])
  {
    FieldGensShape(props);
    var fs := FieldGens(props).value;
    var g := Sequenced(fs);
    assert ModelGen(ModelImpl(Some(props)), definitions).value == g;
    var d := SampleFields(g, env, fuel, s);
    if d.Drawn? {
      SequencedFits(g, env, fuel, s);
      SameKeys(fs, props);
      var es := d.value;
      assert Fits(g, env, fuel, JObject(es));
      forall i | 0 <= i < |es| ensures DrawnByProperty(props, env, fuel, es[i]) {
        PropertyEntryFits(props, fs, env, fuel, es, i);
      }
    }
  }

  /** The entry names one of the properties and its value may be held by that property's field. */
  ghost predicate DrawnByProperty(props: seq<(string, Property)>, env: Env, fuel: nat, e: (string, Json)) {
    exists j :: 0 <= j < |props| && props[j].0 == e.0 && FieldValueFits(props[j].1, env, fuel, e.1)
  }

  lemma PropertyEntryFits(props: seq<(string, Property)>, fs: seq<(string, Gen)>, env: Env, fuel: nat, es: Entries, i: int)
    requires FieldGens(props) == Ok(fs)
    requires Fits(Sequenced(fs), env, fuel, JObject(es))
    requires 0 <= i < |es|
    ensures DrawnByProperty(props, env, fuel, es[i])
  {
    FieldGensShape(props);
    var j := FieldWitness(fs, env, fuel, es, i);
    FieldFits(props[j].1, fs[j].1, env, fuel, es[i].1);
  }

  lemma FieldFits(p: Property, g: Gen, env: Env, fuel: nat, v: Json)
    requires FieldGen(p) == Ok(g)
    requires Fits(g, env, fuel, v)
    ensures FieldValueFits(p, env, fuel, v)
  {
  }

  /** A model with no property map samples the empty object and draws nothing. */
  lemma ModelWithoutPropertiesSamplesEmptyObject(definitions: Option<map<string, Gen>>, env: Env, fuel: nat, s: Stream)
    ensures ModelGen(ModelImpl(None), definitions).Ok?
    ensures Sample(ModelGen(ModelImpl(None), definitions).value, env, fuel, s) == Drawn(JObject([]), s)
  {
  }

  /** Ref fields are bound late: building an object model never reads the table,
      and a ref field whose definition is missing when sampled makes the sample fail. */
  lemma RefFieldsResolveWhenSampled(props: seq<(string, Property)>, d1: Option<map<string, Gen>>, d2: Option<map<string, Gen>>,
                                    i: int, env: Env, fuel: nat, s: Stream)
    requires 0 <= i < |props| && props[i].1.RefProperty?
    ensures ModelGen(ModelImpl(Some(props)), d1) == ModelGen(ModelImpl(Some(props)), d2)
    ensures ModelGen(ModelImpl(Some(props)), d1).Ok? && props[i].1.simpleRef !in env.definitions ==>
              Sample(ModelGen(ModelImpl(Some(props)), d1).value, env, fuel, s).Failed?
  {
    if ModelGen(ModelImpl(Some(props)), d1).Ok? && props[i].1.simpleRef !in env.definitions {
      FieldGensShape(props);
      var fs := FieldGens(props).value;
      var g := Sequenced(fs);
      assert fs[i].1 == Late(props[i].1.simpleRef);
      var ss := FieldSamplers(g, env, fuel);
      forall t ensures !ss[i](t).Drawn? {
        FieldSamplerAt(g, env, fuel, i, t);
      }
      if Traversable.Sequence(ss, s).Drawn? {
        Traversable.SequenceAt(ss, s, i);
        assert false;
      }
    }
  }

  // ---------------------------------------------------------------------------
  // The definition table.

  lemma {:induction false} DefinitionGensShape(defs: seq<(string, Model)>, gen: Model -> Result<Gen>)
    ensures DefinitionGens(defs, gen).Ok? <==> forall i :: 0 <= i < |defs| ==> gen(defs[i].1).Ok?
    ensures DefinitionGens(defs, gen).Ok? ==>
              |DefinitionGens(defs, gen).value| == |defs|
              && forall i :: 0 <= i < |defs| ==> DefinitionGens(defs, gen).value[i] == (defs[i].0, gen(defs[i].1).value)
  {
    if |defs| > 0 {
      DefinitionGensShape(defs[1..], gen);
      assert forall i :: 1 <= i < |defs| ==> defs[1..][i - 1] == defs[i];
    }
  }

  lemma {:induction false} TableOfFacts(es: seq<(string, Gen)>)
    ensures TableOf(es).Keys == KeysOf(es)
    ensures DistinctKeys(es) ==> forall i :: 0 <= i < |es| ==> es[i].0 in TableOf(es) && TableOf(es)[es[i].0] == es[i].1
  {
    if |es| > 0 {
      TableOfFacts(es[1..]);
      if DistinctKeys(es) {
        forall i | 0 <= i < |es| ensures es[i].0 in TableOf(es) && TableOf(es)[es[i].0] == es[i].1 {
          KeyInKeysOf(es, i);
          if i > 0 {
            assert es[i] == es[1..][i - 1];
            KeyInKeysOf(es[1..], i - 1);
          }
        }
      }
    }
  }

  /** The corrected table holds exactly one generator per definition name, the
      definition's own; it builds iff every definition does. */
  lemma InitTable(defs: seq<(string, Model)>)
    ensures Init(defs).Ok? <==> forall i :: 0 <= i < |defs| ==> DefinitionGen(defs[i].1).Ok?
    ensures Init(defs).Ok? ==> Init(defs).value.Keys == KeysOf(defs)
    ensures Init(defs).Ok? && DistinctKeys(defs) ==>
              forall i :: 0 <= i < |defs| ==>
                defs[i].0 in Init(defs).value && Init(defs).value[defs[i].0] == DefinitionGen(defs[i].1).value
  {
    DefinitionGensShape(defs, DefinitionGen);
    if Init(defs).Ok? {
      var es := DefinitionGens(defs, DefinitionGen).value;
      SameKeys(es, defs);
      TableOfFacts(es);
      if DistinctKeys(defs) {
        DistinctSameKeys(es, defs);
      }
    }
  }

  lemma {:induction false} DistinctSameKeys<V, W>(a: seq<(string, V)>, b: seq<(string, W)>)
    requires |a| == |b|
    requires forall i :: 0 <= i < |a| ==> a[i].0 == b[i].0
    requires DistinctKeys(b)
    ensures DistinctKeys(a)
  {
    if |a| > 0 {
      SameKeys(a[1..], b[1..]);
      DistinctSameKeys(a[1..], b[1..]);
    }
  }

  /** In the corrected table a top-level alias samples as its target, one reference deeper. */
  lemma InitAliasSamplesTarget(defs: seq<(string, Model)>, i: int, clock: string, fuel: nat, s: Stream)
    requires Init(defs).Ok? && DistinctKeys(defs)
    requires 0 <= i < |defs| && defs[i].1.RefModel?
    ensures var table := Init(defs).value;
            var target := defs[i].1.simpleRef;
            defs[i].0 in table
            && Sample(table[defs[i].0], Env(table, clock), fuel + 1, s)
               == if target in table then Sample(table[target], Env(table, clock), fuel, s) else Failed(Dangling(target))
  {
    InitTable(defs);
  }

  /** As written, any top-level `RefModel` makes `init` throw. */
  lemma InitAsWrittenRejectsTopLevelRef(defs: seq<(string, Model)>, i: int)
    requires 0 <= i < |defs| && defs[i].1.RefModel?
    ensures InitAsWritten(defs).Err?
  {
    DefinitionGensShape(defs, ModelGenDuringInit);
  }

  /** No definition is itself a `RefModel`. */
  predicate NoTopLevelRef(defs: seq<(string, Model)>) {
    forall i :: 0 <= i < |defs| ==> !defs[i].1.RefModel?
  }

  /** Without a top-level `RefModel` the table as written is the corrected one. */
  lemma InitAgreesWithoutAliases(defs: seq<(string, Model)>)
    requires NoTopLevelRef(defs)
    ensures InitAsWritten(defs) == Init(defs)
  {
    DefinitionGensAgree(defs);
  }

  lemma {:induction false} DefinitionGensAgree(defs: seq<(string, Model)>)
    requires NoTopLevelRef(defs)
    ensures DefinitionGens(defs, ModelGenDuringInit) == DefinitionGens(defs, DefinitionGen)
  {
    if |defs| > 0 {
      assert !defs[0].1.RefModel?;
      assert NoTopLevelRef(defs[1..]) by {
        forall i | 0 <= i < |defs| - 1 ensures !defs[1..][i].1.RefModel? {
          assert defs[1..][i] == defs[i + 1];
        }
      }
      DefinitionGensAgree(defs[1..]);
    }
  }

  /** The table `init` builds, when no definition is a `RefModel`: it builds iff
      every definition's `modelGen` does, its keys are the definition names, and
      with distinct names each name holds its definition's own generator. */
  lemma InitAsWrittenTable(defs: seq<(string, Model)>)
    requires NoTopLevelRef(defs)
    ensures InitAsWritten(defs).Ok? <==> forall i :: 0 <= i < |defs| ==> ModelGen(defs[i].1, None).Ok?
    ensures InitAsWritten(defs).Ok? ==> InitAsWritten(defs).value.Keys == KeysOf(defs)
    ensures InitAsWritten(defs).Ok? && DistinctKeys(defs) ==>
              forall i :: 0 <= i < |defs| ==>
                defs[i].0 in InitAsWritten(defs).value && InitAsWritten(defs).value[defs[i].0] == ModelGen(defs[i].1, None).value
  {
    InitAgreesWithoutAliases(defs);
    InitTable(defs);
    assert forall i :: 0 <= i < |defs| ==> DefinitionGen(defs[i].1) == ModelGen(defs[i].1, None);
  }

  const AliasDefs: seq<(string, Model)> := [("Pet", ModelImpl(None)), ("Alias", RefModel("Pet"))]

  /** The smallest document that shows it: a definition and an alias of it. */
  lemma AliasDocument()
    ensures InitAsWritten(AliasDefs) == Err(Uninitialised("definitions"))
    ensures Init(AliasDefs) == Ok(map["Pet" := Constant(JObject([])), "Alias" := Late("Pet")])
  {
    var tail := [("Alias", RefModel("Pet"))];
    assert AliasDefs[1..] == tail;
    assert tail[1..] == [];
    assert ModelGen(RefModel("Pet"), None) == Err(Uninitialised("definitions"));
    assert DefinitionGens(tail, ModelGenDuringInit) == Err(Uninitialised("definitions"));
    assert DefinitionGens(AliasDefs, ModelGenDuringInit) == Err(Uninitialised("definitions"));
    var es := [("Pet", Constant(JObject([]))), ("Alias", Late("Pet"))];
    var esTail := [("Alias", Late("Pet"))];
    assert es[1..] == esTail;
    assert esTail[1..] == [];
    assert DefinitionGen(RefModel("Pet")) == Ok(Late("Pet"));
    assert DefinitionGens(tail[1..], DefinitionGen) == Ok([]);
    assert DefinitionGen(tail[0].1) == Ok(Late("Pet"));
    assert [(tail[0].0, Late("Pet"))] + [] == esTail;
    assert DefinitionGens(tail, DefinitionGen) == Ok(esTail);
    assert DefinitionGen(AliasDefs[0].1) == Ok(Constant(JObject([])));
    assert [(AliasDefs[0].0, Constant(JObject([])))] + esTail == es;
    assert DefinitionGens(AliasDefs, DefinitionGen) == Ok(es);
    assert TableOf(esTail[1..]) == map[];
    assert TableOf(esTail) == map["Alias" := Late("Pet")];
    assert TableOf(es) == map["Pet" := Constant(JObject([])), "Alias" := Late("Pet")];
  }

  // ---------------------------------------------------------------------------
  // Parameters.

  /** The types each location supports. */
  predicate Supported(p: Parameter) {
    match p
    case QueryParameter(_, typ, items) => if items.Some? then PropertyGen(items.value).Ok? else typ == "string"
    case PathParameter(_, typ, _) => typ == "string" || typ == "integer"
    case HeaderParameter(_, typ, _) => typ == "string" || typ == "integer"
    case FormParameter(_, typ, _) => typ == "string" || typ == "integer" || typ == "file"
    case BodyParameter(_, _) => false
    case OtherParameter(_, _) => false
  }

  /** A parameter builds iff its type is supported where it is; an unsupported declared type is reported by name. */
  lemma ParamGenSupported(p: Parameter)
    requires IsMapLocated(p)
    ensures ParamGen(p).Ok? <==> Supported(p)
    ensures !Supported(p) && !(p.QueryParameter? && p.items.Some?) ==>
              ParamGen(p) == Err(NotImplemented("unimplemented type " + p.typ))
  {
  }

  /** What a path, header or form parameter samples, by declared type and format. */
  predicate ScalarFits(typ: string, format: string, v: Json) {
    || v == JNull
    || (typ == "integer" && format == "int64" && v.JNum? && IsInt64(v.n))
    || (typ == "integer" && format != "int64" && v.JNum? && IsInt32(v.n))
    || ((typ == "string" || typ == "file") && v.JString? && |v.str| <= 5 && AllBasicLatin(v.str))
  }

  lemma ScalarParamSamples(p: Parameter, env: Env, fuel: nat, s: Stream)
    requires p.PathParameter? || p.HeaderParameter? || p.FormParameter?
    requires ParamGen(p).Ok?
    ensures Sample(ParamGen(p).value, env, fuel, s).Drawn?
    ensures ScalarFits(p.typ, p.format, Sample(ParamGen(p).value, env, fuel, s).value)
  {
    var g := ParamGen(p).value;
    if p.typ == "string" || p.typ == "file" {
      DrawStringFits((0, 5), Tail(s));
    }
    SampleFits(g, env, fuel, s);
  }

  lemma {:induction false} ParamGensShape(ps: seq<Parameter>)
    requires forall p :: p in ps ==> IsMapLocated(p)
    ensures ParamGens(ps).Ok? <==> forall i :: 0 <= i < |ps| ==> ParamGen(ps[i]).Ok?
    ensures ParamGens(ps).Ok? ==>
              |ParamGens(ps).value| == |ps|
              && forall i :: 0 <= i < |ps| ==> ParamGens(ps).value[i] == (ps[i].name, ParamGen(ps[i]).value)
  {
    if |ps| > 0 {
      ParamGensShape(ps[1..]);
      assert forall i :: 1 <= i < |ps| ==> ps[1..][i - 1] == ps[i];
    }
  }

  function NamesOf(ps: seq<Parameter>): set<string> {
    set i | 0 <= i < |ps| :: ps[i].name
  }

  lemma ParamGensSupported(ps: seq<Parameter>)
    requires forall p :: p in ps ==> IsMapLocated(p)
    ensures ParamGens(ps).Ok? <==> forall p :: p in ps ==> Supported(p)
  {
    ParamGensShape(ps);
    forall p | p in ps ensures ParamGen(p).Ok? <==> Supported(p) {
      ParamGenSupported(p);
    }
    if forall p :: p in ps ==> Supported(p) {
      forall i | 0 <= i < |ps| ensures ParamGen(ps[i]).Ok? { assert ps[i] in ps; }
    }
  }

  /** A location's generator builds iff each of its parameters is supported, and
      it is the constant empty map exactly when the location has none. */
  lemma LocationGenBuilds(params: seq<Parameter>, loc: Location, env: Env, fuel: nat, s: Stream)
    requires loc != InBody
    ensures LocationGen(params, loc).Ok? <==> forall p :: p in ParamsIn(params, loc) ==> Supported(p)
    ensures LocationGen(params, loc).Ok? ==>
              (LocationGen(params, loc).value.EmptyMap? <==> |ParamsIn(params, loc)| == 0)
    ensures |ParamsIn(params, loc)| == 0 ==> SampleMap(LocationGen(params, loc).value, env, fuel, s) == Drawn([], s)
  {
    var ps := ParamsIn(params, loc);
    assert forall p :: p in ps ==> IsMapLocated(p);
    ParamGensSupported(ps);
  }

  /** A location with parameters samples a map whose keys are exactly the
      location's parameter names, each once, each value fitting a parameter of
      that name. */
  lemma LocationGenKeys(params: seq<Parameter>, loc: Location, env: Env, fuel: nat, s: Stream)
    requires loc != InBody
    requires LocationGen(params, loc).Ok?
    ensures SampleMap(LocationGen(params, loc).value, env, fuel, s).Drawn? ==>
              var es := SampleMap(LocationGen(params, loc).value, env, fuel, s).value;
              var ps := ParamsIn(params, loc);
              KeysOf(es) == NamesOf(ps) && DistinctKeys(es)
              && forall i :: 0 <= i < |es| ==> DrawnByParam(ps, env, fuel, es[i])
  {
    var ps := ParamsIn(params, loc);
    assert forall p :: p in ps ==> IsMapLocated(p);
    if |ps| > 0 {
      ParamGensShape(ps);
      var fs := ParamGens(ps).value;
      var mg := FieldsMap(fs);
      assert LocationGen(params, loc).value == mg;
      SampleMapFits(mg, env, fuel, s);
      var d := SampleMap(mg, env, fuel, s);
      if d.Drawn? {
        FieldsMapFits(ps, fs, env, fuel, d.value);
      }
    }
  }

  /** The entry names one of the parameters and its value is one that parameter's generator can draw. */
  ghost predicate DrawnByParam(ps: seq<Parameter>, env: Env, fuel: nat, e: (string, Json)) {
    exists j :: 0 <= j < |ps| && ps[j].name == e.0
                && IsMapLocated(ps[j]) && ParamGen(ps[j]).Ok? && Fits(ParamGen(ps[j]).value, env, fuel, e.1)
  }

  lemma FieldsMapFits(ps: seq<Parameter>, fs: seq<(string, Gen)>, env: Env, fuel: nat, es: Entries)
    requires forall p :: p in ps ==> IsMapLocated(p)
    requires ParamGens(ps) == Ok(fs)
    requires Fits(Sequenced(fs), env, fuel, JObject(es))
    ensures KeysOf(es) == NamesOf(ps) && DistinctKeys(es)
    ensures forall i :: 0 <= i < |es| ==> DrawnByParam(ps, env, fuel, es[i])
  {
    ParamGensShape(ps);
    ParamKeys(ps, fs);
    forall i | 0 <= i < |es| ensures DrawnByParam(ps, env, fuel, es[i]) {
      FieldsMapEntryFits(ps, fs, env, fuel, es, i);
    }
  }

  lemma FieldsMapEntryFits(ps: seq<Parameter>, fs: seq<(string, Gen)>, env: Env, fuel: nat, es: Entries, i: int)
    requires forall p :: p in ps ==> IsMapLocated(p)
    requires ParamGens(ps) == Ok(fs)
    requires Fits(Sequenced(fs), env, fuel, JObject(es))
    requires 0 <= i < |es|
    ensures DrawnByParam(ps, env, fuel, es[i])
  {
    var j := FieldWitness(fs, env, fuel, es, i);
    ParamAt(ps, fs, j);
  }

  lemma ParamAt(ps: seq<Parameter>, fs: seq<(string, Gen)>, j: int)
    requires forall p :: p in ps ==> IsMapLocated(p)
    requires ParamGens(ps) == Ok(fs)
    requires 0 <= j < |fs|
    ensures j < |ps| && IsMapLocated(ps[j]) && ParamGen(ps[j]) == Ok(fs[j].1) && ps[j].name == fs[j].0
  {
    ParamGensShape(ps);
    assert ps[j] in ps;
  }

  /** The field of a sequenced generator that an entry of its sample came from. */
  lemma FieldWitness(fs: seq<(string, Gen)>, env: Env, fuel: nat, es: Entries, i: int) returns (j: int)
    requires Fits(Sequenced(fs), env, fuel, JObject(es))
    requires 0 <= i < |es|
    ensures 0 <= j < |fs| && fs[j].0 == es[i].0 && Fits(fs[j].1, env, fuel, es[i].1)
  {
    j :| 0 <= j < |fs| && fs[j].0 == es[i].0 && Fits(fs[j].1, env, fuel, es[i].1);
  }

  lemma ParamKeys(ps: seq<Parameter>, fs: seq<(string, Gen)>)
    requires forall p :: p in ps ==> IsMapLocated(p)
    requires |fs| == |ps| && forall i :: 0 <= i < |ps| ==> fs[i].0 == ps[i].name
    ensures KeysOf(fs) == NamesOf(ps)
  {
    KeysOfIsNames(fs);
    forall k | k in NamesOf(ps) ensures k in KeysOf(fs) {
      var i :| 0 <= i < |ps| && ps[i].name == k;
      assert fs[i].0 == k;
    }
  }

  /** At most one body parameter: none gives no body generator, one gives its
      schema's model generator, more is an error. */
  lemma BodyParamsRules(params: seq<Parameter>, table: map<string, Gen>)
    ensures |ParamsIn(params, InBody)| > 1 ==> BodyParamsGenerator(params, table) == Err(Runtime("more than one body parameter"))
    ensures |ParamsIn(params, InBody)| == 0 ==> BodyParamsGenerator(params, table) == Ok(None)
    ensures |ParamsIn(params, InBody)| == 1 ==>
              exists i :: 0 <= i < |params| && params[i].BodyParameter?
                          && (BodyParamsGenerator(params, table).Ok? <==> ModelGen(params[i].schema, Some(table)).Ok?)
                          && (BodyParamsGenerator(params, table).Ok? ==>
                                BodyParamsGenerator(params, table).value == Some(ModelGen(params[i].schema, Some(table)).value))
  {
    var bodies := ParamsIn(params, InBody);
    if |bodies| == 1 {
      assert bodies[0] in bodies;
      var i :| 0 <= i < |params| && params[i] == bodies[0];
    }
  }
}
