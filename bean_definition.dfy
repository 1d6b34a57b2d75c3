/**
 * The bean definition as the generator holds it: a mutable object whose write methods
 * append the generated class to a writer, section by section.
 */
module BeanDefinitions {
  import opened Wrappers
  import opened Strings
  import opened Definitions
  import opened PropertyDefinitions
  import opened BeanText

  /** The destination of the generated text, as whole lines each ended by LINE_END. */
  class LineWriter {
    var lines: seq<string>

    constructor ()
      ensures lines == []
    {
      lines := [];
    }

    method Write(ls: seq<string>)
      modifies this
      ensures lines == old(lines) + ls
    {
      lines := lines + ls;
    }
  }

  /** Appending two pieces one by one appends their concatenation. */
  lemma AppendThree<T>(s: seq<T>, a: seq<T>, b: seq<T>)
    ensures s + a + b == s + (a + b)
  {
  }

  /** Appending seven pieces one by one appends their concatenation. */
  lemma AppendSeven<T>(s: seq<T>, a: seq<T>, b: seq<T>, c: seq<T>, d: seq<T>, e: seq<T>, f: seq<T>, g: seq<T>)
    ensures s + a + b + c + d + e + f + g == s + (a + b + c + d + e + f + g)
  {
  }

  /** Sections written one after another make up the whole class. */
  lemma SourceAssembled(b: Bean, s0: seq<string>, s1: seq<string>, s2: seq<string>, s3: seq<string>,
                        s4: seq<string>, s5: seq<string>, s6: seq<string>, s7: seq<string>)
    requires NamedProperties(b.properties)
    requires s1 == s0 + PackageLines(PackageName(b.qualifiedName))
    requires s2 == s1 + ImportLines(b.entityTemplate)
    requires s3 == s2 + ClassHeaderLines(b.entityTemplate, b.entityName, b.qualifiedName, b.typeParameters, b.extendsFrom)
    requires s4 == s3 + ConstructorsLines(SingleName(b.qualifiedName), b.constructors)
    requires s5 == s4 + AccessorLines(b.properties, b.withSetters)
    requires s6 == s5 + BuilderLines(SingleName(b.qualifiedName), b.typeParameters, FirstForBuilder(b.constructors))
    requires s7 == s6 + ["}"]
    ensures s7 == s0 + SourceLines(b)
  {
    var single := SingleName(b.qualifiedName);
    AppendSeven(s0, PackageLines(PackageName(b.qualifiedName)), ImportLines(b.entityTemplate),
      ClassHeaderLines(b.entityTemplate, b.entityName, b.qualifiedName, b.typeParameters, b.extendsFrom),
      ConstructorsLines(single, b.constructors), AccessorLines(b.properties, b.withSetters),
      BuilderLines(single, b.typeParameters, FirstForBuilder(b.constructors)), ["}"]);
  }

  class BeanDefinition {
    const entityTemplate: bool
    const qualifiedName: string
    const packageName: string
    const singleName: string
    const extendsFrom: string
    var entityName: Option<string>
    var withSetters: bool
    var builderConstructor: Option<ConstructorDefinition>
    var typeParameters: seq<string>
    var constructors: seq<ConstructorDefinition>
    var properties: seq<PropertyDefinition>

    /** The split names belong to the qualified name; the builder constructor belongs to the list. */
    ghost predicate Valid()
      reads this
    {
      && packageName == PackageName(qualifiedName)
      && singleName == SingleName(qualifiedName)
      && builderConstructor == FirstForBuilder(constructors)
    }

    /** What the writer reads: the definition with its properties' current flags. */
    function Model(): Bean
      reads this, set p | p in properties
    {
      Bean(entityTemplate, qualifiedName, extendsFrom, entityName, withSetters,
           typeParameters, constructors, States(properties))
    }

    constructor (entityTemplate: bool, qualifiedName: string, extendsFrom: string)
      ensures Valid()
      ensures this.entityTemplate == entityTemplate && this.qualifiedName == qualifiedName
      ensures this.extendsFrom == extendsFrom
      ensures entityName == None && !withSetters && typeParameters == [] && constructors == [] && properties == []
    {
      this.entityTemplate := entityTemplate;
      this.qualifiedName := qualifiedName;
      this.extendsFrom := extendsFrom;
      packageName := PackageName(qualifiedName);
      singleName := SingleName(qualifiedName);
      entityName := None;
      withSetters := false;
      builderConstructor := None;
      typeParameters := [];
      constructors := [];
      properties := [];
    }

    method SetEntityName(entityName: Option<string>)
      modifies this`entityName
      ensures this.entityName == entityName
    {
      this.entityName := entityName;
    }

    method SetWithSetters(withSetters: bool)
      modifies this`withSetters
      ensures this.withSetters == withSetters
    {
      this.withSetters := withSetters;
    }

    /** A missing list (null) becomes the empty list. */
    method SetTypeParameters(typeParameters: Option<seq<string>>)
      modifies this`typeParameters
      ensures this.typeParameters == if typeParameters.Some? then typeParameters.value else []
    {
      this.typeParameters := if typeParameters.Some? then typeParameters.value else [];
    }

    /** Replaces the constructors and selects the first one marked for the builder. */
    method SetConstructors(constructors: Option<seq<ConstructorDefinition>>)
      requires Valid()
      modifies this`constructors, this`builderConstructor
      ensures Valid()
      ensures this.constructors == if constructors.Some? then constructors.value else []
    {
      this.constructors := if constructors.Some? then constructors.value else [];
      builderConstructor := FirstForBuilder(this.constructors);
    }

    method SetProperties(properties: Option<seq<PropertyDefinition>>)
      modifies this`properties
      ensures this.properties == if properties.Some? then properties.value else []
    {
      this.properties := if properties.Some? then properties.value else [];
    }

    /** Writes the whole class: package, imports, header, constructors, accessors, builder, end. */
    method WriteSourceCode(writer: LineWriter)
      requires Valid() && NamedProperties(States(properties))
      modifies writer
      ensures writer.lines == old(writer.lines) + SourceLines(old(Model()))
    {
      ghost var b := Model();
      ghost var s0 := writer.lines;
      WritePackage(writer);
      ghost var s1 := writer.lines;
      WriteImports(writer);
      ghost var s2 := writer.lines;
      WriteClassNameDeclaration(writer);
      ghost var s3 := writer.lines;
      WriteConstructors(writer);
      ghost var s4 := writer.lines;
      WriteGettersAndSetters(writer, b.properties);
      ghost var s5 := writer.lines;
      WriteBuilder(writer);
      ghost var s6 := writer.lines;
      WriteClassEnding(writer);
      SourceAssembled(b, s0, s1, s2, s3, s4, s5, s6, writer.lines);
    }

    method WriteClassEnding(writer: LineWriter)
      modifies writer
      ensures writer.lines == old(writer.lines) + ["}"]
    {
      writer.Write(["}"]);
    }

    /** Builds the import list, sorts it and writes one line per import, then a blank line. */
    method WriteImports(writer: LineWriter)
      modifies writer
      ensures writer.lines == old(writer.lines) + ImportLines(entityTemplate)
    {
      var imports := [GENERATED_IMPORT];
      if entityTemplate {
        imports := imports + [ENTITY_IMPORT];
      }
      imports := Sort(imports);
      var i := 0;
      while i < |imports|
        invariant 0 <= i <= |imports|
        invariant writer.lines == old(writer.lines) + Concat(imports[..i], ImportStatement)
      {
        ConcatStep(imports, ImportStatement, i);
        AppendThree(old(writer.lines), Concat(imports[..i], ImportStatement), ImportStatement(imports[i]));
        writer.Write(ImportStatement(imports[i]));
        i := i + 1;
      }
      assert imports[..i] == imports;
      writer.Write([""]);
    }

    method WritePackage(writer: LineWriter)
      requires Valid()
      modifies writer
      ensures writer.lines == old(writer.lines) + PackageLines(PackageName(qualifiedName))
    {
      if packageName != "" {
        writer.Write(["package " + packageName + ";", ""]);
      }
    }

    method WriteClassNameDeclaration(writer: LineWriter)
      requires Valid()
      modifies writer
      ensures writer.lines == old(writer.lines)
        + ClassHeaderLines(entityTemplate, entityName, qualifiedName, typeParameters, extendsFrom)
    {
      writer.Write(["@Generated(\"" + GENERATOR_NAME + "\")"]);
      if entityTemplate {
        writer.Write([EntityAnnotation(entityName)]);
      }
      var superClassName := InferSuperClassName(extendsFrom, packageName);
      writer.Write(["public class " + singleName + TypeParameterList(typeParameters)
        + " extends " + superClassName + " {"]);
    }

    /** The declared constructors in order, or one public no-argument constructor. */
    method WriteConstructors(writer: LineWriter)
      requires Valid()
      modifies writer
      ensures writer.lines == old(writer.lines) + ConstructorsLines(SingleName(qualifiedName), constructors)
    {
      if |constructors| == 0 {
        WriteConstructor(writer, DEFAULT_CONSTRUCTOR);
        return;
      }
      var i := 0;
      while i < |constructors|
        invariant 0 <= i <= |constructors|
        invariant writer.lines == old(writer.lines) + Concat(constructors[..i], c => ConstructorLines(singleName, c))
      {
        ConcatStep(constructors, c => ConstructorLines(singleName, c), i);
        AppendThree(old(writer.lines), Concat(constructors[..i], c => ConstructorLines(singleName, c)),
          ConstructorLines(singleName, constructors[i]));
        WriteConstructor(writer, constructors[i]);
        i := i + 1;
      }
      assert constructors[..i] == constructors;
    }

    method WriteConstructor(writer: LineWriter, definition: ConstructorDefinition)
      requires Valid()
      modifies writer
      ensures writer.lines == old(writer.lines) + ConstructorLines(SingleName(qualifiedName), definition)
    {
      writer.Write(["",
        Indentation(1) + ModifierText(definition.accessModifier) + " " + singleName
          + "(" + Join(", ", Declarations(definition.parameters)) + ") {",
        Indentation(2) + "super(" + Join(", ", Names(definition.parameters)) + ");",
        Indentation(1) + "}"]);
    }

    /** For each property in order: its getter if needed, its setter if needed and allowed. */
    method WriteGettersAndSetters(writer: LineWriter, ghost ps: seq<PropertyState>)
      requires |ps| == |properties| && forall j :: 0 <= j < |properties| ==> properties[j].State() == ps[j]
      requires NamedProperties(ps)
      modifies writer
      ensures writer.lines == old(writer.lines) + AccessorLines(ps, withSetters)
    {
      var i := 0;
      while i < |properties|
        invariant 0 <= i <= |properties|
        invariant writer.lines == old(writer.lines) + AccessorLines(ps[..i], withSetters)
      {
        AccessorLinesStep(ps, withSetters, i);
        AppendThree(old(writer.lines), AccessorLines(ps[..i], withSetters), PropertyAccessorLines(ps[i], withSetters));
        assert properties[i].State() == ps[i];
        WriteAccessors(writer, properties[i]);
        i := i + 1;
      }
      assert ps[..i] == ps;
    }

    method WriteAccessors(writer: LineWriter, property: PropertyDefinition)
      requires property.name != ""
      modifies writer
      ensures writer.lines == old(writer.lines) + PropertyAccessorLines(property.State(), withSetters)
    {
      ghost var start := writer.lines;
      if property.needsGetter {
        writer.Write(["",
          Indentation(1) + "public " + property.typ + " " + GetterName(property.name) + "() {",
          Indentation(2) + "return " + property.name + ";",
          Indentation(1) + "}"]);
      }
      assert writer.lines == start + GetterLines(property.State());
      if !property.isFinal && property.needsSetter && withSetters {
        writer.Write(["",
          Indentation(1) + "public void " + SetterName(property.name) + "(" + property.typ + " " + property.name + ") {",
          Indentation(2) + "this." + property.name + " = " + property.name + ";",
          Indentation(1) + "}"]);
      }
    }

    /** Nothing without a builder constructor; otherwise the nested builder, builder() and toBuilder(). */
    method WriteBuilder(writer: LineWriter)
      requires Valid()
      modifies writer
      ensures writer.lines == old(writer.lines)
        + BuilderLines(SingleName(qualifiedName), typeParameters, FirstForBuilder(constructors))
    {
      if builderConstructor.None? {
        return;
      }
      var ps := builderConstructor.value.parameters;
      ghost var start := writer.lines;
      writer.Write(BuilderDeclarationLines(singleName, typeParameters));
      WriteBuilderPrivateProperties(writer, ps);
      WriteBuilderFluidMethods(writer, ps);
      writer.Write(BuildMethodLines(singleName, ps));
      writer.Write([Indentation(1) + "}"]);
      writer.Write(BuilderCreatorLines(singleName));
      writer.Write(ToBuilderLines(singleName, ps));
      AppendSeven(start, BuilderDeclarationLines(singleName, typeParameters), BuilderFieldLines(ps),
        FluentMethodLines(singleName, ps), BuildMethodLines(singleName, ps), [Indentation(1) + "}"],
        BuilderCreatorLines(singleName), ToBuilderLines(singleName, ps));
    }

    method WriteBuilderPrivateProperties(writer: LineWriter, ps: seq<VariableDefinition>)
      modifies writer
      ensures writer.lines == old(writer.lines) + BuilderFieldLines(ps)
    {
      var i := 0;
      while i < |ps|
        invariant 0 <= i <= |ps|
        invariant writer.lines == old(writer.lines) + Concat(ps[..i], BuilderField)
      {
        ConcatStep(ps, BuilderField, i);
        AppendThree(old(writer.lines), Concat(ps[..i], BuilderField), BuilderField(ps[i]));
        writer.Write(["", Indentation(2) + "private " + ps[i].typ + " " + ps[i].name + ";"]);
        i := i + 1;
      }
      assert ps[..i] == ps;
    }

    method WriteBuilderFluidMethods(writer: LineWriter, ps: seq<VariableDefinition>)
      requires Valid()
      modifies writer
      ensures writer.lines == old(writer.lines) + FluentMethodLines(SingleName(qualifiedName), ps)
    {
      var i := 0;
      while i < |ps|
        invariant 0 <= i <= |ps|
        invariant writer.lines == old(writer.lines) + Concat(ps[..i], p => FluentMethod(singleName, p))
      {
        ConcatStep(ps, p => FluentMethod(singleName, p), i);
        AppendThree(old(writer.lines), Concat(ps[..i], p => FluentMethod(singleName, p)), FluentMethod(singleName, ps[i]));
        writer.Write(FluentMethod(singleName, ps[i]));
        i := i + 1;
      }
      assert ps[..i] == ps;
    }
  }
}
