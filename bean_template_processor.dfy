/**
 * The decision rules of the annotation processor. The compiler's element API is replaced by
 * plain facts about the template class: names, type strings as the compiler prints them and
 * modifier sets.
 */
module BeanTemplateProcessor {
  import opened Wrappers
  import opened Strings
  import opened Definitions
  import opened PropertyDefinitions
  import opened BeanText
  import BeanDefinitions

  /** A template class's name ends with this; the bean's name is what precedes it. */
  const BEAN_DEFINITION_SUFFIX := "Template"

  /** A field of the template class. */
  datatype FieldFacts = FieldFacts(name: string, typ: string, modifiers: set<string>)

  /** A method of the template class: its simple name and its parameters' types. */
  datatype MethodFacts = MethodFacts(name: string, parameterTypes: seq<string>)

  /** A constructor of the template class, and whether it carries the builder annotation. */
  datatype ConstructorFacts = ConstructorFacts(
    modifiers: set<string>,
    parameters: seq<VariableDefinition>,
    builderAnnotated: bool)

  // ---------------------------------------------------------------- bean name

  /**
   * The qualified name of the bean to generate. An explicit type name with a '.' is taken as
   * it is; one without is put in the template's package, which an inner class does not have
   * (enclosingPackage is None). Without a type name the template's own name must end with the
   * suffix, which is dropped.
   */
  function InferGeneratedBeanName(templateName: string, typeName: Option<string>,
                                  enclosingPackage: Option<string>): (r: Result<string>)
    ensures typeName.Some? && '.' in typeName.value ==> r == Ok(typeName.value)
    ensures typeName.Some? && '.' !in typeName.value ==>
      (r.Ok? <==> enclosingPackage.Some?)
      && (r.Ok? ==> '.' in r.value && PackageName(r.value) == enclosingPackage.value
                    && SingleName(r.value) == typeName.value)
    ensures typeName.None? ==> (r.Ok? <==> EndsWith(templateName, BEAN_DEFINITION_SUFFIX))
    ensures typeName.None? && r.Ok? ==> r.value + BEAN_DEFINITION_SUFFIX == templateName
    ensures typeName.None? && r.Err? ==>
      r.message == "Couldn't infer a proper generated name for " + templateName
  {
    match typeName
    case Some(name) =>
      if '.' in name then Ok(name)
      else if enclosingPackage.None? then Err("Inner classes not supported")
      else
        QualifiedNameSplits(enclosingPackage.value, name);
        assert (enclosingPackage.value + "." + name)[|enclosingPackage.value|] == '.';
        Ok(enclosingPackage.value + "." + name)
    case None =>
      if EndsWith(templateName, BEAN_DEFINITION_SUFFIX) then
        var n := |templateName| - |BEAN_DEFINITION_SUFFIX|;
        assert templateName == templateName[..n] + templateName[n..];
        Ok(templateName[..n])
      else Err("Couldn't infer a proper generated name for " + templateName)
  }

  /** Naming a template after its bean plus the suffix gives back exactly that bean name. */
  lemma TemplateNameRoundTrip(beanName: string, enclosingPackage: Option<string>)
    ensures InferGeneratedBeanName(beanName + BEAN_DEFINITION_SUFFIX, None, enclosingPackage) == Ok(beanName)
  {
    var t := beanName + BEAN_DEFINITION_SUFFIX;
    assert t[|t| - |BEAN_DEFINITION_SUFFIX|..] == BEAN_DEFINITION_SUFFIX;
    assert t[..|beanName|] == beanName;
  }

  // ---------------------------------------------------------------- constructors

  /** The access modifier of a constructor: protected first, then public, else none. */
  function ToConstructorDefinition(c: ConstructorFacts): (r: ConstructorDefinition)
    ensures r.parameters == c.parameters
    ensures r.usedByBuilder <==> c.builderAnnotated
    ensures r.accessModifier.None? <==> "protected" !in c.modifiers && "public" !in c.modifiers
    ensures "protected" in c.modifiers ==> r.accessModifier == Some("protected")
    ensures "protected" !in c.modifiers && "public" in c.modifiers ==> r.accessModifier == Some("public")
  {
    var modifier :=
      if "protected" in c.modifiers then Some("protected")
      else if "public" in c.modifiers then Some("public")
      else None;
    ConstructorDefinition(modifier, c.parameters, c.builderAnnotated)
  }

  /** The constructors that are not private, in declaration order. */
  function NonPrivate(cs: seq<ConstructorFacts>): (r: seq<ConstructorFacts>)
    ensures |r| <= |cs|
    ensures forall c :: c in r <==> c in cs && "private" !in c.modifiers
  {
    if cs == [] then []
    else
      var last := cs[|cs| - 1];
      assert cs == cs[..|cs| - 1] + [last];
      NonPrivate(cs[..|cs| - 1]) + (if "private" in last.modifiers then [] else [last])
  }

  /** Filtering two lists one after the other keeps each list's survivors in their order. */
  lemma {:induction false} NonPrivateAppend(a: seq<ConstructorFacts>, b: seq<ConstructorFacts>)
    ensures NonPrivate(a + b) == NonPrivate(a) + NonPrivate(b)
  {
    if b != [] {
      assert (a + b)[..|a + b| - 1] == a + b[..|b| - 1];
      NonPrivateAppend(a, b[..|b| - 1]);
    } else {
      assert a + b == a;
    }
  }

  /** The kept constructors, each turned into a definition. */
  function KeptConstructors(cs: seq<ConstructorFacts>): (r: seq<ConstructorDefinition>)
    ensures |r| == |NonPrivate(cs)|
    ensures forall i :: 0 <= i < |r| ==> r[i] == ToConstructorDefinition(NonPrivate(cs)[i])
  {
    var kept := NonPrivate(cs);
    seq(|kept|, i requires 0 <= i < |kept| => ToConstructorDefinition(kept[i]))
  }

  predicate HasNoArgs(cs: seq<ConstructorDefinition>)
  {
    exists i :: 0 <= i < |cs| && cs[i].parameters == []
  }

  /**
   * The kept constructors in order, followed by a public no-argument one when the template
   * asks for it (noArgsConstructor is true) and none of the kept ones takes no arguments.
   */
  function InferConstructors(cs: seq<ConstructorFacts>, noArgsConstructor: Option<bool>): (r: seq<ConstructorDefinition>)
    ensures |KeptConstructors(cs)| <= |r| <= |KeptConstructors(cs)| + 1
    ensures r[..|KeptConstructors(cs)|] == KeptConstructors(cs)
    ensures |r| > |KeptConstructors(cs)| <==> noArgsConstructor == Some(true) && !HasNoArgs(KeptConstructors(cs))
    ensures |r| > |KeptConstructors(cs)| ==> r[|r| - 1] == DEFAULT_CONSTRUCTOR
  {
    var kept := KeptConstructors(cs);
    if noArgsConstructor == Some(true) && !HasNoArgs(kept) then
      assert (kept + [DEFAULT_CONSTRUCTOR])[..|kept|] == kept;
      kept + [DEFAULT_CONSTRUCTOR]
    else kept
  }

  /** When asked for, a constructor without arguments is always there afterwards. */
  lemma NoArgsConstructorProvided(cs: seq<ConstructorFacts>)
    ensures HasNoArgs(InferConstructors(cs, Some(true)))
  {
    var r, kept := InferConstructors(cs, Some(true)), KeptConstructors(cs);
    if HasNoArgs(kept) {
      var i :| 0 <= i < |kept| && kept[i].parameters == [];
      assert r[i] == r[..|kept|][i];
    } else {
      assert r[|r| - 1].parameters == [];
    }
  }

  /** The added constructor is never the builder's: the builder constructor is the same either way. */
  lemma AddedConstructorNotForBuilder(cs: seq<ConstructorFacts>, noArgsConstructor: Option<bool>)
    ensures FirstForBuilder(InferConstructors(cs, noArgsConstructor)) == FirstForBuilder(KeptConstructors(cs))
  {
    var r, kept := InferConstructors(cs, noArgsConstructor), KeptConstructors(cs);
    if |r| > |kept| {
      assert r == kept + [DEFAULT_CONSTRUCTOR] by {
        assert r == r[..|kept|] + [r[|kept|]];
      }
      FirstForBuilderAppend(kept, DEFAULT_CONSTRUCTOR);
    } else {
      assert r == r[..|kept|];
    }
  }

  lemma FirstForBuilderAppend(cs: seq<ConstructorDefinition>, c: ConstructorDefinition)
    requires !c.usedByBuilder
    ensures FirstForBuilder(cs + [c]) == FirstForBuilder(cs)
  {
    var r := FirstForBuilder(cs + [c]);
    if r.Some? {
      var i :| 0 <= i < |cs + [c]| && (cs + [c])[i] == r.value && r.value.usedByBuilder
        && forall j :: 0 <= j < i ==> !(cs + [c])[j].usedByBuilder;
      assert i < |cs|;
      assert forall j :: 0 <= j < i ==> cs[j] == (cs + [c])[j];
    } else {
      assert forall j :: 0 <= j < |cs| ==> cs[j] == (cs + [c])[j];
    }
  }

  // ---------------------------------------------------------------- properties

  /** A property as a field first gives it: final as the field is, both accessors needed. */
  function InitialState(f: FieldFacts): (r: PropertyState)
    ensures r.name == f.name && r.typ == f.typ
    ensures r.isFinal <==> "final" in f.modifiers
    ensures r.needsGetter && r.needsSetter
  {
    PropertyState(f.name, f.typ, "final" in f.modifiers, true, true)
  }

  /** The fields that are not static, in declaration order. */
  function NonStatic(fs: seq<FieldFacts>): (r: seq<FieldFacts>)
    ensures |r| <= |fs|
    ensures forall f :: f in r <==> f in fs && "static" !in f.modifiers
  {
    if fs == [] then []
    else
      var last := fs[|fs| - 1];
      assert fs == fs[..|fs| - 1] + [last];
      NonStatic(fs[..|fs| - 1]) + (if "static" in last.modifiers then [] else [last])
  }

  /** The compiler guarantees that no two fields of a class share a name. */
  predicate UniqueNames(fs: seq<FieldFacts>)
  {
    forall i, j :: 0 <= i < j < |fs| ==> fs[i].name != fs[j].name
  }

  /** The property map before any method is looked at: one entry per field, keyed by name. */
  function InitialMap(fs: seq<FieldFacts>): (r: map<string, PropertyState>)
    ensures forall k :: k in r <==> exists i :: 0 <= i < |fs| && fs[i].name == k
    ensures forall k :: k in r ==> r[k].name == k
    ensures UniqueNames(fs) ==> forall i :: 0 <= i < |fs| ==> r[fs[i].name] == InitialState(fs[i])
  {
    if fs == [] then map[]
    else
      var init := fs[..|fs| - 1];
      var last := fs[|fs| - 1];
      assert forall i :: 0 <= i < |init| ==> init[i] == fs[i];
      InitialMap(init)[last.name := InitialState(last)]
  }

  /** The property a method would read: no parameters, a name of more than three characters starting "get". */
  function GetterTarget(m: MethodFacts): (r: Option<string>)
    ensures r.Some? <==> |m.parameterTypes| == 0 && |m.name| > 3 && StartsWith(m.name, "get")
    ensures r.Some? ==> r.value == Decapitalize(m.name[3..])
  {
    if |m.parameterTypes| == 0 && |m.name| > 3 && StartsWith(m.name, "get") then
      Some(Decapitalize(m.name[3..]))
    else None
  }

  /** The property a method would write: one parameter, a name of more than three characters starting "set". */
  function SetterTarget(m: MethodFacts): (r: Option<string>)
    ensures r.Some? <==> |m.parameterTypes| == 1 && |m.name| > 3 && StartsWith(m.name, "set")
    ensures r.Some? ==> r.value == Decapitalize(m.name[3..])
  {
    if |m.parameterTypes| == 1 && |m.name| > 3 && StartsWith(m.name, "set") then
      Some(Decapitalize(m.name[3..]))
    else None
  }

  /** The getter name the emitter would write is recognised as that property's getter. */
  lemma GetterNameRecognised(name: string)
    requires name != "" && !IsUpperAscii(name[0])
    ensures GetterTarget(MethodFacts(GetterName(name), [])) == Some(name)
  {
    var n := GetterName(name);
    assert n[..3] == "get" && n[3..] == Capitalize(name);
    DecapitalizeCapitalize(name);
  }

  /** The setter name the emitter would write is recognised as that property's setter. */
  lemma SetterNameRecognised(name: string, typ: string)
    requires name != "" && !IsUpperAscii(name[0])
    ensures SetterTarget(MethodFacts(SetterName(name), [typ])) == Some(name)
  {
    var n := SetterName(name);
    assert n[..3] == "set" && n[3..] == Capitalize(name);
    DecapitalizeCapitalize(name);
  }

  /** A field whose name starts with a capital is not matched by its own getter's name. */
  lemma CapitalisedFieldGetterNotRecognised()
    ensures GetterName("URL") == "getURL"
    ensures GetterTarget(MethodFacts("getURL", [])) == Some("uRL")
  {
    assert Capitalize("URL") == "URL";
    assert "getURL"[3..] == "URL";
    assert Decapitalize("URL") == "uRL";
  }

  /** checkForGetter: a matching getter clears needsGetter on its property and on nothing else. */
  function AfterGetterCheck(props: map<string, PropertyState>, m: MethodFacts): (r: map<string, PropertyState>)
    ensures r.Keys == props.Keys
    ensures forall k :: k in props && GetterTarget(m) != Some(k) ==> r[k] == props[k]
    ensures forall k :: k in props && GetterTarget(m) == Some(k) ==> r[k] == props[k].(needsGetter := false)
  {
    var target := GetterTarget(m);
    if target.Some? && target.value in props then
      props[target.value := props[target.value].(needsGetter := false)]
    else props
  }

  /** A setter matches a property of that name whose type is the setter's parameter type. */
  predicate SetterMatches(m: MethodFacts, k: string, typ: string)
  {
    SetterTarget(m) == Some(k) && m.parameterTypes == [typ]
  }

  /** checkForSetter: a matching setter clears needsSetter on its property and on nothing else. */
  function AfterSetterCheck(props: map<string, PropertyState>, m: MethodFacts): (r: map<string, PropertyState>)
    ensures r.Keys == props.Keys
    ensures forall k :: k in props && !SetterMatches(m, k, props[k].typ) ==> r[k] == props[k]
    ensures forall k :: k in props && SetterMatches(m, k, props[k].typ) ==> r[k] == props[k].(needsSetter := false)
  {
    var target := SetterTarget(m);
    if target.Some? && target.value in props && props[target.value].typ == m.parameterTypes[0] then
      props[target.value := props[target.value].(needsSetter := false)]
    else props
  }

  /** checkWithFields: the getter check, then the setter check. */
  function AfterMethodCheck(props: map<string, PropertyState>, m: MethodFacts): map<string, PropertyState>
  {
    AfterSetterCheck(AfterGetterCheck(props, m), m)
  }

  /** Every method checked in order. */
  function AfterChecks(props: map<string, PropertyState>, ms: seq<MethodFacts>): (r: map<string, PropertyState>)
    ensures r.Keys == props.Keys
    ensures forall k :: k in r ==> r[k].name == props[k].name
  {
    if ms == [] then props else AfterMethodCheck(AfterChecks(props, ms[..|ms| - 1]), ms[|ms| - 1])
  }

  predicate GetterIn(ms: seq<MethodFacts>, k: string)
  {
    exists j :: 0 <= j < |ms| && GetterTarget(ms[j]) == Some(k)
  }

  predicate SetterIn(ms: seq<MethodFacts>, k: string, typ: string)
  {
    exists j :: 0 <= j < |ms| && SetterMatches(ms[j], k, typ)
  }

  /**
   * After all methods are checked a property keeps its name, type and finality; it needs a
   * getter exactly when it did and no method is its getter, and a setter exactly when it did
   * and no method is its setter with its type.
   */
  lemma {:induction false} AfterChecksFlags(props: map<string, PropertyState>, ms: seq<MethodFacts>, k: string)
    requires k in props
    ensures k in AfterChecks(props, ms)
    ensures AfterChecks(props, ms)[k] == props[k].(
      needsGetter := props[k].needsGetter && !GetterIn(ms, k),
      needsSetter := props[k].needsSetter && !SetterIn(ms, k, props[k].typ))
  {
    if ms != [] {
      var init, last := ms[..|ms| - 1], ms[|ms| - 1];
      AfterChecksFlags(props, init, k);
      MethodsInStep(ms, k, props[k].typ);
      AfterMethodCheckFlags(AfterChecks(props, init), last, k);
    }
  }

  /** One method clears a property's getter flag if it is its getter, its setter flag if it is its setter. */
  lemma AfterMethodCheckFlags(props: map<string, PropertyState>, m: MethodFacts, k: string)
    requires k in props
    ensures k in AfterMethodCheck(props, m)
    ensures AfterMethodCheck(props, m)[k] == props[k].(
      needsGetter := props[k].needsGetter && GetterTarget(m) != Some(k),
      needsSetter := props[k].needsSetter && !SetterMatches(m, k, props[k].typ))
  {
  }

  lemma MethodsInStep(ms: seq<MethodFacts>, k: string, typ: string)
    requires ms != []
    ensures GetterIn(ms, k) <==> GetterIn(ms[..|ms| - 1], k) || GetterTarget(ms[|ms| - 1]) == Some(k)
    ensures SetterIn(ms, k, typ) <==> SetterIn(ms[..|ms| - 1], k, typ) || SetterMatches(ms[|ms| - 1], k, typ)
  {
    var init := ms[..|ms| - 1];
    assert forall j :: 0 <= j < |init| ==> init[j] == ms[j];
  }

  /** The properties in field order, after every method is checked. */
  function InferredProperties(fields: seq<FieldFacts>, methods: seq<MethodFacts>): (r: seq<PropertyState>)
    ensures |r| == |NonStatic(fields)|
    ensures forall i :: 0 <= i < |r| ==> r[i].name == NonStatic(fields)[i].name
  {
    var kept := NonStatic(fields);
    var checked := AfterChecks(InitialMap(kept), methods);
    seq(|kept|, i requires 0 <= i < |kept| => checked[kept[i].name])
  }

  /**
   * What discovery decides for field i: its name and type, final as the field is, a getter
   * unless a method is its getter, a setter unless a method is its setter with its type.
   */
  lemma InferredFlags(fields: seq<FieldFacts>, methods: seq<MethodFacts>, i: nat)
    requires UniqueNames(NonStatic(fields)) && i < |NonStatic(fields)|
    ensures var f, p := NonStatic(fields)[i], InferredProperties(fields, methods)[i];
      && p.name == f.name && p.typ == f.typ
      && (p.isFinal <==> "final" in f.modifiers)
      && (p.needsGetter <==> !GetterIn(methods, f.name))
      && (p.needsSetter <==> !SetterIn(methods, f.name, f.typ))
  {
    var kept := NonStatic(fields);
    AfterChecksFlags(InitialMap(kept), methods, kept[i].name);
  }

  /** End to end: a hand-written getter under the emitter's name stops the getter being generated. */
  lemma HandWrittenGetterSuppressesGeneratedGetter(fields: seq<FieldFacts>, methods: seq<MethodFacts>, i: nat)
    requires UniqueNames(NonStatic(fields)) && i < |NonStatic(fields)|
    requires var name := NonStatic(fields)[i].name;
      name != "" && !IsUpperAscii(name[0]) && MethodFacts(GetterName(name), []) in methods
    ensures GetterLines(InferredProperties(fields, methods)[i]) == []
  {
    var name := NonStatic(fields)[i].name;
    InferredFlags(fields, methods, i);
    GetterNameRecognised(name);
    var j :| 0 <= j < |methods| && methods[j] == MethodFacts(GetterName(name), []);
    assert GetterTarget(methods[j]) == Some(name);
  }

  /** End to end: a hand-written setter with the field's type stops the setter being generated. */
  lemma HandWrittenSetterSuppressesGeneratedSetter(fields: seq<FieldFacts>, methods: seq<MethodFacts>,
                                                    i: nat, withSetters: bool)
    requires UniqueNames(NonStatic(fields)) && i < |NonStatic(fields)|
    requires var f := NonStatic(fields)[i];
      f.name != "" && !IsUpperAscii(f.name[0]) && MethodFacts(SetterName(f.name), [f.typ]) in methods
    ensures SetterLines(InferredProperties(fields, methods)[i], withSetters) == []
  {
    var f := NonStatic(fields)[i];
    InferredFlags(fields, methods, i);
    SetterNameRecognised(f.name, f.typ);
    var j :| 0 <= j < |methods| && methods[j] == MethodFacts(SetterName(f.name), [f.typ]);
    assert SetterMatches(methods[j], f.name, f.typ);
  }

  /** Without a method that is its getter, a named property gets a generated getter. */
  lemma GetterGeneratedWithoutHandWrittenOne(fields: seq<FieldFacts>, methods: seq<MethodFacts>, i: nat)
    requires UniqueNames(NonStatic(fields)) && i < |NonStatic(fields)|
    requires NonStatic(fields)[i].name != "" && !GetterIn(methods, NonStatic(fields)[i].name)
    ensures |GetterLines(InferredProperties(fields, methods)[i])| == 4
  {
    InferredFlags(fields, methods, i);
  }

  /** A setter with another parameter type leaves the setter to be generated. */
  lemma SetterOfOtherTypeIgnored()
    ensures var fields := [FieldFacts("scores", "int[]", {"protected"})];
      && InferredProperties(fields, [MethodFacts("setScores", ["java.lang.String[]"])])[0].needsSetter
      && !InferredProperties(fields, [MethodFacts("setScores", ["int[]"])])[0].needsSetter
  {
    var f := FieldFacts("scores", "int[]", {"protected"});
    var other, same := MethodFacts("setScores", ["java.lang.String[]"]), MethodFacts("setScores", ["int[]"]);
    SetScoresTargetsScores(other);
    SetScoresTargetsScores(same);
    LoneSetterDecidedByType(f, other);
    LoneSetterDecidedByType(f, same);
  }

  /** With one field and one method that targets it, the method is its setter exactly when the types agree. */
  lemma LoneSetterDecidedByType(f: FieldFacts, m: MethodFacts)
    requires "static" !in f.modifiers && SetterTarget(m) == Some(f.name) && |m.parameterTypes| == 1
    ensures InferredProperties([f], [m])[0].needsSetter <==> m.parameterTypes != [f.typ]
  {
    assert NonStatic([f]) == [f] by {
      assert f in NonStatic([f]);
    }
    assert SetterIn([m], f.name, f.typ) <==> SetterMatches([m][0], f.name, f.typ);
    InferredFlags([f], [m], 0);
  }

  lemma SetScoresTargetsScores(m: MethodFacts)
    requires m.name == "setScores" && |m.parameterTypes| == 1
    ensures SetterTarget(m) == Some("scores")
  {
    assert "setScores"[..3] == "set" && "setScores"[3..] == "Scores";
    assert Decapitalize("Scores") == "scores";
  }

  // ---------------------------------------------------------------- imperative discovery

  /** The states of the properties a map holds, key by key. */
  function StatesOf(properties: map<string, PropertyDefinition>): (r: map<string, PropertyState>)
    reads properties.Values
    ensures r.Keys == properties.Keys
    ensures forall k :: k in properties ==> r[k] == properties[k].State()
  {
    map k | k in properties :: properties[k].State()
  }

  /** Different keys hold different objects, so a flag cleared through one key shows at no other. */
  predicate Distinct(properties: map<string, PropertyDefinition>)
  {
    forall k, l :: k in properties && l in properties && k != l ==> properties[k] != properties[l]
  }

  /** A new property for a field: not final unless the field is. */
  method ToPropertyDefinition(field: FieldFacts) returns (property: PropertyDefinition)
    ensures fresh(property)
    ensures property.State() == InitialState(field)
  {
    property := new PropertyDefinition(field.name, field.typ);
    property.SetFinal("final" in field.modifiers);
  }

  method CheckForGetter(properties: map<string, PropertyDefinition>, m: MethodFacts)
    requires Distinct(properties)
    modifies properties.Values
    ensures StatesOf(properties) == AfterGetterCheck(old(StatesOf(properties)), m)
  {
    var target := GetterTarget(m);
    if target.Some? && target.value in properties {
      var property := properties[target.value];
      property.SetNeedsGetter(false);
      assert forall k :: k in properties && k != target.value ==> properties[k] != property;
    }
  }

  method CheckForSetter(properties: map<string, PropertyDefinition>, m: MethodFacts)
    requires Distinct(properties)
    modifies properties.Values
    ensures StatesOf(properties) == AfterSetterCheck(old(StatesOf(properties)), m)
  {
    var target := SetterTarget(m);
    if target.Some? && target.value in properties && properties[target.value].typ == m.parameterTypes[0] {
      var property := properties[target.value];
      property.SetNeedsSetter(false);
      assert forall k :: k in properties && k != target.value ==> properties[k] != property;
    }
  }

  method CheckWithFields(properties: map<string, PropertyDefinition>, m: MethodFacts)
    requires Distinct(properties)
    modifies properties.Values
    ensures StatesOf(properties) == AfterMethodCheck(old(StatesOf(properties)), m)
  {
    CheckForGetter(properties, m);
    CheckForSetter(properties, m);
  }

  /** Collectors.toMap over the fields: one new property per field, keyed by its name. */
  method CollectByName(fields: seq<FieldFacts>)
    returns (byName: map<string, PropertyDefinition>, properties: seq<PropertyDefinition>)
    requires UniqueNames(fields)
    ensures |properties| == |fields|
    ensures forall t :: 0 <= t < |fields| ==> fields[t].name in byName && byName[fields[t].name] == properties[t]
    ensures forall t :: 0 <= t < |fields| ==> fresh(properties[t])
    ensures Distinct(byName)
    ensures StatesOf(byName) == InitialMap(fields)
  {
    properties := [];
    var i := 0;
    while i < |fields|
      invariant 0 <= i <= |fields| && |properties| == i
      invariant forall t :: 0 <= t < i ==> fresh(properties[t]) && properties[t].State() == InitialState(fields[t])
      invariant forall t, u :: 0 <= t < u < i ==> properties[t] != properties[u]
    {
      var property := ToPropertyDefinition(fields[i]);
      properties := properties + [property];
      i := i + 1;
    }
    byName := map[];
    i := 0;
    while i < |fields|
      invariant 0 <= i <= |fields|
      invariant forall t :: 0 <= t < i ==> fields[t].name in byName && byName[fields[t].name] == properties[t]
      invariant forall k :: k in byName ==> exists t :: 0 <= t < i && fields[t].name == k
    {
      forall t | 0 <= t < i
        ensures fields[t].name != fields[i].name
      {
      }
      byName := byName[fields[i].name := properties[i]];
      i := i + 1;
    }
    CollectedStates(fields, byName, properties);
    CollectedDistinct(fields, byName, properties);
  }

  /** A map holding, under each field's name, that field's property in its initial state. */
  lemma CollectedStates(fields: seq<FieldFacts>, byName: map<string, PropertyDefinition>,
                        properties: seq<PropertyDefinition>)
    requires UniqueNames(fields) && |properties| == |fields|
    requires forall t :: 0 <= t < |fields| ==> properties[t].State() == InitialState(fields[t])
    requires forall t :: 0 <= t < |fields| ==> fields[t].name in byName && byName[fields[t].name] == properties[t]
    requires forall k :: k in byName ==> exists t :: 0 <= t < |fields| && fields[t].name == k
    ensures StatesOf(byName) == InitialMap(fields)
  {
    var states, initial := StatesOf(byName), InitialMap(fields);
    assert states.Keys == initial.Keys by {
      assert states.Keys == byName.Keys;
    }
    assert forall k :: k in states ==> states[k] == initial[k] by {
      forall k | k in states
        ensures states[k] == initial[k]
      {
        var t :| 0 <= t < |fields| && fields[t].name == k;
        assert states[k] == properties[t].State();
      }
    }
    SameEntries(states, initial);
  }

  lemma SameEntries<K, V>(a: map<K, V>, b: map<K, V>)
    requires a.Keys == b.Keys
    requires forall k :: k in a ==> a[k] == b[k]
    ensures a == b
  {
  }

  /** Distinct fields get distinct objects, so no two names share one. */
  lemma CollectedDistinct(fields: seq<FieldFacts>, byName: map<string, PropertyDefinition>,
                          properties: seq<PropertyDefinition>)
    requires |properties| == |fields|
    requires forall t, u :: 0 <= t < u < |fields| ==> properties[t] != properties[u]
    requires forall t :: 0 <= t < |fields| ==> fields[t].name in byName && byName[fields[t].name] == properties[t]
    requires forall k :: k in byName ==> exists t :: 0 <= t < |fields| && fields[t].name == k
    ensures Distinct(byName)
  {
    forall k, l | k in byName && l in byName && k != l
      ensures byName[k] != byName[l]
    {
      var t :| 0 <= t < |fields| && fields[t].name == k;
      var u :| 0 <= u < |fields| && fields[u].name == l;
      if t < u {
        assert byName[k] == properties[t] != properties[u] == byName[l];
      } else {
        assert byName[l] == properties[u] != properties[t] == byName[k];
      }
    }
  }

  /** The forEach over the methods: each one checked against the map in turn. */
  method CheckAllMethods(byName: map<string, PropertyDefinition>, methods: seq<MethodFacts>)
    requires Distinct(byName)
    modifies byName.Values
    ensures StatesOf(byName) == AfterChecks(old(StatesOf(byName)), methods)
  {
    var j := 0;
    while j < |methods|
      invariant 0 <= j <= |methods|
      invariant StatesOf(byName) == AfterChecks(old(StatesOf(byName)), methods[..j])
    {
      CheckWithFields(byName, methods[j]);
      assert methods[..j + 1][..j] == methods[..j];
      j := j + 1;
    }
    assert methods[..j] == methods;
  }

  /**
   * One new property per non-static field, keyed by name; then every method is checked
   * against the map. The properties come back in field order.
   */
  method InferPropertyList(fields: seq<FieldFacts>, methods: seq<MethodFacts>)
    returns (properties: seq<PropertyDefinition>)
    requires UniqueNames(NonStatic(fields))
    ensures forall p :: p in properties ==> fresh(p)
    ensures States(properties) == InferredProperties(fields, methods)
  {
    var kept := NonStatic(fields);
    var byName;
    byName, properties := CollectByName(kept);
    CheckAllMethods(byName, methods);
    ghost var checked := StatesOf(byName);
    assert checked == AfterChecks(InitialMap(kept), methods);
    ghost var states := States(properties);
    assert forall t :: 0 <= t < |kept| ==> states[t] == checked[kept[t].name] by {
      forall t | 0 <= t < |kept|
        ensures states[t] == checked[kept[t].name]
      {
        assert states[t] == properties[t].State() == byName[kept[t].name].State();
      }
    }
    InferredInFieldOrder(fields, methods, states);
  }

  /** A list holding, for each kept field in order, that field's entry after the checks. */
  lemma InferredInFieldOrder(fields: seq<FieldFacts>, methods: seq<MethodFacts>, states: seq<PropertyState>)
    requires |states| == |NonStatic(fields)|
    requires forall t :: 0 <= t < |states| ==>
      var name := NonStatic(fields)[t].name;
      name in AfterChecks(InitialMap(NonStatic(fields)), methods) &&
      states[t] == AfterChecks(InitialMap(NonStatic(fields)), methods)[name]
    ensures states == InferredProperties(fields, methods)
  {
  }

  // ---------------------------------------------------------------- definition

  /**
   * createBeanDefinition: the template's own qualified name is both the name the bean's name
   * is inferred from and the superclass; an entity template takes the entity name and always
   * gets setters, any other template gets setters only when its attribute says so. Type
   * parameters, constructors and properties come from the rules above.
   */
  method CreateBeanDefinition(templateName: string, isEntityTemplate: bool, typeName: Option<string>,
                              enclosingPackage: Option<string>, entityName: Option<string>,
                              settersAttribute: Option<bool>, typeParameters: seq<string>,
                              constructors: seq<ConstructorFacts>, noArgsConstructor: Option<bool>,
                              fields: seq<FieldFacts>, methods: seq<MethodFacts>)
    returns (r: Result<BeanDefinitions.BeanDefinition>)
    requires UniqueNames(NonStatic(fields))
    ensures var name := InferGeneratedBeanName(templateName, typeName, enclosingPackage);
      && (r.Ok? <==> name.Ok?)
      && (r.Err? ==> r.message == name.message)
      && (r.Ok? ==> r.value.qualifiedName == name.value)
    ensures r.Ok? ==> var d := r.value;
      && fresh(d) && d.Valid()
      && d.entityTemplate == isEntityTemplate
      && d.extendsFrom == templateName
      && d.entityName == (if isEntityTemplate then entityName else None)
      && d.withSetters == (isEntityTemplate || settersAttribute == Some(true))
      && d.typeParameters == typeParameters
      && d.constructors == InferConstructors(constructors, noArgsConstructor)
      && (forall p :: p in d.properties ==> fresh(p))
      && States(d.properties) == InferredProperties(fields, methods)
  {
    var name := InferGeneratedBeanName(templateName, typeName, enclosingPackage);
    if name.Err? {
      return Err(name.message);
    }
    var properties := InferPropertyList(fields, methods);
    var definition := NewDefinition(isEntityTemplate, name.value, templateName, entityName, settersAttribute);
    SetDiscovered(definition, typeParameters, InferConstructors(constructors, noArgsConstructor), properties);
    r := Ok(definition);
  }

  /** The definition as createBeanDefinition first builds it: names, the entity name and the setters flag. */
  method NewDefinition(isEntityTemplate: bool, qualifiedName: string, templateName: string,
                       entityName: Option<string>, settersAttribute: Option<bool>)
    returns (d: BeanDefinitions.BeanDefinition)
    ensures fresh(d) && d.Valid()
    ensures d.entityTemplate == isEntityTemplate && d.qualifiedName == qualifiedName && d.extendsFrom == templateName
    ensures d.entityName == (if isEntityTemplate then entityName else None)
    ensures d.withSetters == (isEntityTemplate || settersAttribute == Some(true))
    ensures d.typeParameters == [] && d.constructors == [] && d.properties == []
  {
    d := new BeanDefinitions.BeanDefinition(isEntityTemplate, qualifiedName, templateName);
    if isEntityTemplate {
      d.SetEntityName(entityName);
      d.SetWithSetters(true);
    } else {
      d.SetWithSetters(settersAttribute == Some(true));
    }
  }

  /** The last three setters of createBeanDefinition; the properties' own states are left alone. */
  method SetDiscovered(d: BeanDefinitions.BeanDefinition, typeParameters: seq<string>,
                       constructors: seq<ConstructorDefinition>, properties: seq<PropertyDefinition>)
    requires d.Valid()
    modifies d
    ensures d.Valid()
    ensures d.entityName == old(d.entityName) && d.withSetters == old(d.withSetters)
    ensures d.typeParameters == typeParameters && d.constructors == constructors && d.properties == properties
    ensures States(properties) == old(States(properties))
  {
    d.SetTypeParameters(Some(typeParameters));
    d.SetConstructors(Some(constructors));
    d.SetProperties(Some(properties));
  }
}
