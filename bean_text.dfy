/**
 * The text of a generated bean as a function of its definition. Output is a sequence of
 * lines, each of which the writer ends with LINE_END. Each write step modelled here ends its
 * last line with LINE_END; writeTypeParameters and the @Entity pieces, which end mid-line,
 * are folded into the line they continue, so sections are whole lines.
 */
module BeanText {
  import opened Wrappers
  import opened Strings
  import opened Definitions
  import opened PropertyDefinitions

  const LINE_END := "\n"
  const GENERATOR_NAME := "Simple bean generator"
  const INDENTATION_UNIT := "\t"
  const GENERATED_IMPORT := "javax.annotation.processing.Generated"
  const ENTITY_IMPORT := "javax.persistence.Entity"

  /** The constructor written when a definition declares none. */
  const DEFAULT_CONSTRUCTOR := ConstructorDefinition(Some("public"), [], false)

  /** Everything the writer reads from a bean definition. */
  datatype Bean = Bean(
    entityTemplate: bool,
    qualifiedName: string,
    extendsFrom: string,
    entityName: Option<string>,
    withSetters: bool,
    typeParameters: seq<string>,
    constructors: seq<ConstructorDefinition>,
    properties: seq<PropertyState>)

  /** The text the writer receives for a sequence of lines. */
  function Text(lines: seq<string>): string
  {
    if lines == [] then "" else lines[0] + LINE_END + Text(lines[1..])
  }

  /** INDENTATION_UNIT repeated n times. */
  function Indentation(n: nat): (r: string)
    ensures |r| == n && forall i :: 0 <= i < n ==> r[i] == '\t'
  {
    if n == 0 then "" else Indentation(n - 1) + INDENTATION_UNIT
  }

  // ---------------------------------------------------------------- names

  /** The text before the last '.', or "" when there is none. */
  function PackageName(qualifiedName: string): (r: string)
    ensures '.' !in qualifiedName ==> r == ""
    ensures '.' in qualifiedName ==>
      |r| < |qualifiedName| && qualifiedName[..|r|] == r && qualifiedName[|r|] == '.'
  {
    if '.' in qualifiedName then qualifiedName[..LastIndexOf(qualifiedName, '.')] else ""
  }

  /** The text after the last '.', or the whole name when there is none. */
  function SingleName(qualifiedName: string): (r: string)
    ensures '.' !in r
    ensures '.' !in qualifiedName ==> r == qualifiedName
    ensures '.' in qualifiedName ==> PackageName(qualifiedName) + "." + r == qualifiedName
  {
    if '.' in qualifiedName then
      var k := LastIndexOf(qualifiedName, '.');
      assert qualifiedName == qualifiedName[..k] + "." + qualifiedName[k + 1..];
      qualifiedName[k + 1..]
    else qualifiedName
  }

  /** A package and a dot-free simple name joined by '.' split back into the two. */
  lemma QualifiedNameSplits(packageName: string, singleName: string)
    requires '.' !in singleName
    ensures PackageName(packageName + "." + singleName) == packageName
    ensures SingleName(packageName + "." + singleName) == singleName
  {
    var q := packageName + "." + singleName;
    assert q[|packageName|] == '.';
    var k := LastIndexOf(q, '.');
    assert q[|packageName| + 1..] == singleName;
    assert q[..|packageName|] == packageName;
  }

  /**
   * How the generated class names its superclass, as the code is written: when both
   * packages are equal it drops the package and the '.' after it, by position, even when
   * both packages are empty and there is no '.' to drop.
   */
  function InferSuperClassNameAsWritten(extendsFrom: string, packageName: string): (r: string)
    requires extendsFrom != ""
    ensures PackageName(extendsFrom) != packageName ==> r == extendsFrom
    ensures PackageName(extendsFrom) == packageName && '.' in extendsFrom ==> r == SingleName(extendsFrom)
    ensures '.' !in extendsFrom && packageName == "" ==> r == extendsFrom[1..]
  {
    var superClassPackage := PackageName(extendsFrom);
    if superClassPackage == packageName then extendsFrom[|superClassPackage| + 1..]
    else extendsFrom
  }

  /** In the unnamed package the written code loses the superclass's first character. */
  lemma UnnamedPackageLosesFirstCharacter()
    ensures InferSuperClassNameAsWritten("Base", "") == "ase"
    ensures InferSuperClassName("Base", "") == "Base"
  {
  }

  /**
   * How the generated class names its superclass: the simple name when the superclass is
   * in the bean's own package, the qualified name otherwise.
   */
  function InferSuperClassName(extendsFrom: string, packageName: string): (r: string)
    ensures PackageName(extendsFrom) == packageName ==> r == SingleName(extendsFrom)
    ensures PackageName(extendsFrom) != packageName ==> r == extendsFrom
    ensures packageName != "" && PackageName(extendsFrom) == packageName ==>
      packageName + "." + r == extendsFrom
  {
    if PackageName(extendsFrom) == packageName then SingleName(extendsFrom) else extendsFrom
  }

  /** The two readings agree everywhere except when both packages are empty. */
  lemma SuperClassNameAgreesOutsideUnnamedPackage(extendsFrom: string, packageName: string)
    requires extendsFrom != ""
    requires packageName != "" || PackageName(extendsFrom) != ""
    ensures InferSuperClassNameAsWritten(extendsFrom, packageName)
         == InferSuperClassName(extendsFrom, packageName)
  {
    var p := PackageName(extendsFrom);
    if p == packageName {
      assert '.' in extendsFrom;
      assert extendsFrom == p + "." + SingleName(extendsFrom);
      assert extendsFrom[|p| + 1..] == SingleName(extendsFrom);
    }
  }

  // ---------------------------------------------------------------- sections

  /** Each item's lines, one item after the other. */
  function Concat<T>(xs: seq<T>, f: T -> seq<string>): seq<string>
  {
    if xs == [] then [] else Concat(xs[..|xs| - 1], f) + f(xs[|xs| - 1])
  }

  lemma ConcatOne<T>(x: T, f: T -> seq<string>)
    ensures Concat([x], f) == f(x)
  {
    assert [x][..0] == [];
  }

  lemma ConcatTwo<T>(x: T, y: T, f: T -> seq<string>)
    ensures Concat([x, y], f) == f(x) + f(y)
  {
    assert [x, y][..1] == [x];
    ConcatOne(x, f);
  }

  /** One more element appends exactly its own lines. */
  lemma ConcatStep<T>(xs: seq<T>, f: T -> seq<string>, i: nat)
    requires i < |xs|
    ensures Concat(xs[..i + 1], f) == Concat(xs[..i], f) + f(xs[i])
  {
    assert xs[..i + 1][..i] == xs[..i];
  }

  lemma {:induction false} ConcatLength<T>(xs: seq<T>, f: T -> seq<string>, k: nat)
    requires forall x :: |f(x)| == k
    ensures |Concat(xs, f)| == k * |xs|
  {
    if xs != [] {
      ConcatLength(xs[..|xs| - 1], f, k);
      assert k * |xs| == k * (|xs| - 1) + k;
    }
  }

  /** Concatenating two lists of items writes the first list's lines, then the second's. */
  lemma {:induction false} ConcatAppend<T>(a: seq<T>, b: seq<T>, f: T -> seq<string>)
    ensures Concat(a + b, f) == Concat(a, f) + Concat(b, f)
  {
    if b != [] {
      assert (a + b)[..|a + b| - 1] == a + b[..|b| - 1];
      ConcatAppend(a, b[..|b| - 1], f);
    } else {
      assert a + b == a;
    }
  }

  /** Item i's lines sit between the lines of the items before it and after it. */
  lemma ConcatSplit<T>(xs: seq<T>, f: T -> seq<string>, i: nat)
    requires i < |xs|
    ensures Concat(xs, f) == Concat(xs[..i], f) + f(xs[i]) + Concat(xs[i + 1..], f)
  {
    assert xs == xs[..i + 1] + xs[i + 1..];
    ConcatAppend(xs[..i + 1], xs[i + 1..], f);
    ConcatStep(xs, f, i);
  }

  /** When every item writes k lines, item i's lines are lines k*i to k*i+k. */
  lemma ConcatAt<T>(xs: seq<T>, f: T -> seq<string>, k: nat, i: nat)
    requires forall x :: |f(x)| == k
    requires i < |xs|
    ensures |Concat(xs, f)| == k * |xs|
    ensures Concat(xs, f)[k * i .. k * i + k] == f(xs[i])
  {
    ConcatLength(xs, f, k);
    ConcatLength(xs[..i], f, k);
    ConcatSplit(xs, f, i);
  }

  function PackageLines(packageName: string): (r: seq<string>)
    ensures packageName == "" <==> r == []
  {
    if packageName == "" then [] else ["package " + packageName + ";", ""]
  }

  function Imports(entityTemplate: bool): seq<string>
  {
    [GENERATED_IMPORT] + (if entityTemplate then [ENTITY_IMPORT] else [])
  }

  function ImportStatement(qualifier: string): seq<string>
  {
    ["import " + qualifier + ";"]
  }

  /** One import line per sorted import, then a blank line. */
  function ImportLines(entityTemplate: bool): seq<string>
  {
    Concat(Sort(Imports(entityTemplate)), ImportStatement) + [""]
  }

  /** "javax.annotation..." sorts before "javax.persistence...": they first differ at index 6. */
  lemma GeneratedBeforeEntity()
    ensures Below(GENERATED_IMPORT, ENTITY_IMPORT)
  {
    var g, e := GENERATED_IMPORT, ENTITY_IMPORT;
    assert g[..6] == e[..6];
    BelowAtFirstDifference(g, e, 6);
  }

  /** The generated marker sorts before the entity marker, so sorting keeps the list as built. */
  lemma ImportsAlreadySorted(entityTemplate: bool)
    ensures Sort(Imports(entityTemplate)) == Imports(entityTemplate)
  {
    var names := Imports(entityTemplate);
    if entityTemplate {
      GeneratedBeforeEntity();
      assert names == [GENERATED_IMPORT, ENTITY_IMPORT];
    }
    assert Sorted(names);
    SortOfSorted(names);
  }

  /** The import block is the generated marker, and the entity marker only for entity templates. */
  lemma ImportBlock(entityTemplate: bool)
    ensures ImportLines(entityTemplate) == ImportStatement(GENERATED_IMPORT)
      + (if entityTemplate then ImportStatement(ENTITY_IMPORT) else []) + [""]
  {
    ImportsAlreadySorted(entityTemplate);
    if entityTemplate {
      assert Imports(true) == [GENERATED_IMPORT, ENTITY_IMPORT];
      ConcatTwo(GENERATED_IMPORT, ENTITY_IMPORT, ImportStatement);
    } else {
      assert Imports(false) == [GENERATED_IMPORT];
      ConcatOne(GENERATED_IMPORT, ImportStatement);
    }
  }

  function TypeParameterList(typeParameters: seq<string>): string
  {
    if typeParameters == [] then "" else "<" + Join(", ", typeParameters) + ">"
  }

  function EntityAnnotation(entityName: Option<string>): string
  {
    "@Entity" + (if entityName.Some? && entityName.value != "" then "(name=\"" + entityName.value + "\")" else "")
  }

  function ClassDeclaration(qualifiedName: string, typeParameters: seq<string>, extendsFrom: string): string
  {
    "public class " + SingleName(qualifiedName) + TypeParameterList(typeParameters)
      + " extends " + InferSuperClassName(extendsFrom, PackageName(qualifiedName)) + " {"
  }

  function ClassHeaderLines(entityTemplate: bool, entityName: Option<string>, qualifiedName: string,
                            typeParameters: seq<string>, extendsFrom: string): seq<string>
  {
    ["@Generated(\"" + GENERATOR_NAME + "\")"]
    + (if entityTemplate then [EntityAnnotation(entityName)] else [])
    + [ClassDeclaration(qualifiedName, typeParameters, extendsFrom)]
  }

  /** The type parameters are written between '<' and '>' in declared order, and not at all when there are none. */
  lemma TypeParametersInDeclaredOrder(typeParameters: seq<string>)
    requires forall i :: 0 <= i < |typeParameters| ==> IsListItem(typeParameters[i])
    ensures var t := TypeParameterList(typeParameters);
      && (typeParameters == [] <==> t == "")
      && (typeParameters != [] ==> |t| >= 2 && t[0] == '<' && t[|t| - 1] == '>' && Items(t[1..|t| - 1]) == typeParameters)
  {
    if typeParameters != [] {
      var t := TypeParameterList(typeParameters);
      assert t[1..|t| - 1] == Join(", ", typeParameters);
      ItemsOfJoin(typeParameters);
    }
  }

  /**
   * The class header: the Generated annotation, an @Entity line exactly for an entity
   * template, then the declaration, whose name is followed by the type parameter list.
   */
  lemma ClassHeaderShape(entityTemplate: bool, entityName: Option<string>, qualifiedName: string,
                         typeParameters: seq<string>, extendsFrom: string)
    ensures var r := ClassHeaderLines(entityTemplate, entityName, qualifiedName, typeParameters, extendsFrom);
      var head := "public class " + SingleName(qualifiedName) + TypeParameterList(typeParameters);
      && |r| == (if entityTemplate then 3 else 2)
      && r[0] == "@Generated(\"" + GENERATOR_NAME + "\")"
      && (entityTemplate ==> r[1][..7] == "@Entity")
      && |head| <= |r[|r| - 1]| && r[|r| - 1][..|head|] == head
  {
    var head := "public class " + SingleName(qualifiedName) + TypeParameterList(typeParameters);
    var declaration := ClassDeclaration(qualifiedName, typeParameters, extendsFrom);
    assert declaration[..|head|] == head;
    assert EntityAnnotation(entityName)[..7] == "@Entity";
  }

  /** Writer.append(null) writes the four characters "null". */
  function ModifierText(accessModifier: Option<string>): string
  {
    if accessModifier.Some? then accessModifier.value else "null"
  }

  function Names(ps: seq<VariableDefinition>): (r: seq<string>)
    ensures |r| == |ps| && forall i :: 0 <= i < |ps| ==> r[i] == ps[i].name
  {
    seq(|ps|, i requires 0 <= i < |ps| => ps[i].name)
  }

  function Declarations(ps: seq<VariableDefinition>): (r: seq<string>)
    ensures |r| == |ps| && forall i :: 0 <= i < |ps| ==> r[i] == ps[i].typ + " " + ps[i].name
  {
    seq(|ps|, i requires 0 <= i < |ps| => ps[i].typ + " " + ps[i].name)
  }

  /** The names of the parameters, comma-separated, as passed on to another constructor. */
  function ArgumentList(ps: seq<VariableDefinition>): string
  {
    Join(", ", Names(ps))
  }

  predicate IsListItem(s: string)
  {
    s != "" && ',' !in s
  }

  /** An argument list reads back as the parameter names in declared order. */
  lemma ArgumentsInDeclaredOrder(ps: seq<VariableDefinition>)
    requires forall i :: 0 <= i < |ps| ==> IsListItem(ps[i].name)
    ensures Items(ArgumentList(ps)) == Names(ps)
  {
    ItemsOfJoin(Names(ps));
  }

  function ConstructorLines(singleName: string, c: ConstructorDefinition): seq<string>
  {
    ["",
     Indentation(1) + ModifierText(c.accessModifier) + " " + singleName
       + "(" + Join(", ", Declarations(c.parameters)) + ") {",
     Indentation(2) + "super(" + ArgumentList(c.parameters) + ");",
     Indentation(1) + "}"]
  }

  /** The declared constructors in order, or the public no-argument one when none are declared. */
  function ConstructorsLines(singleName: string, cs: seq<ConstructorDefinition>): (r: seq<string>)
    ensures cs == [] ==>
      r == ["", Indentation(1) + "public " + singleName + "() {", Indentation(2) + "super();", Indentation(1) + "}"]
    ensures cs != [] ==> |r| == 4 * |cs|
  {
    if cs == [] then
      var c := DEFAULT_CONSTRUCTOR;
      assert Join(", ", Declarations(c.parameters)) == "" && ArgumentList(c.parameters) == "";
      var I1 := Indentation(1);
      var header := I1 + "public" + " " + singleName + "(" + "" + ") {";
      assert ConstructorLines(singleName, c)[1] == header;
      assert header == I1 + ("public" + " ") + singleName + ("(" + "" + ") {");
      assert "public" + " " == "public ";
      assert "(" + "" + ") {" == "() {";
      assert Indentation(2) + "super(" + "" + ");" == Indentation(2) + ("super(" + "" + ");");
      assert "super(" + "" + ");" == "super();";
      ConstructorLines(singleName, DEFAULT_CONSTRUCTOR)
    else
      ConcatLength(cs, c => ConstructorLines(singleName, c), 4);
      Concat(cs, c => ConstructorLines(singleName, c))
  }

  /**
   * Constructor i of a non-empty list is written in lines 4i to 4i+4: its parameter
   * declarations in order, and a super call passing the same names in the same order.
   */
  lemma ConstructorWrittenInOrder(singleName: string, cs: seq<ConstructorDefinition>, i: nat)
    requires i < |cs|
    ensures ConstructorsLines(singleName, cs)[4 * i .. 4 * i + 4] == ConstructorLines(singleName, cs[i])
    ensures ConstructorsLines(singleName, cs)[4 * i + 1] == Indentation(1) + ModifierText(cs[i].accessModifier) + " "
      + singleName + "(" + Join(", ", Declarations(cs[i].parameters)) + ") {"
    ensures ConstructorsLines(singleName, cs)[4 * i + 2] == Indentation(2) + "super(" + ArgumentList(cs[i].parameters) + ");"
  {
    ConcatAt(cs, c => ConstructorLines(singleName, c), 4, i);
    var block := ConstructorsLines(singleName, cs)[4 * i .. 4 * i + 4];
    assert block[1] == ConstructorsLines(singleName, cs)[4 * i + 1];
    assert block[2] == ConstructorsLines(singleName, cs)[4 * i + 2];
  }

  /** A constructor the discovery found without `public` or `protected` is written as `null`. */
  lemma PackagePrivateConstructorWrittenAsNull(singleName: string, ps: seq<VariableDefinition>)
    ensures ConstructorsLines(singleName, [ConstructorDefinition(None, ps, false)])[1]
         == Indentation(1) + "null " + singleName + "(" + Join(", ", Declarations(ps)) + ") {"
  {
    ConstructorWrittenInOrder(singleName, [ConstructorDefinition(None, ps, false)], 0);
  }

  // ---------------------------------------------------------------- accessors

  function GetterName(name: string): string
    requires name != ""
  {
    "get" + Capitalize(name)
  }

  function SetterName(name: string): string
    requires name != ""
  {
    "set" + Capitalize(name)
  }

  /** Accessor names: "get" or "set", the first character upper-cased, the rest of the name unchanged. */
  lemma AccessorNamesSpelled(name: string)
    requires name != ""
    ensures var g, s := GetterName(name), SetterName(name);
      && |g| == |name| + 3 && g[..3] == "get" && g[4..] == name[1..]
      && |s| == |name| + 3 && s[..3] == "set" && s[4..] == name[1..]
      && g[3] == s[3]
      && ('a' <= name[0] <= 'z' ==> g[3] as int == name[0] as int - 32)
      && (!('a' <= name[0] <= 'z') ==> g[3] == name[0])
  {
    var c := Capitalize(name);
    assert GetterName(name)[3..] == c && SetterName(name)[3..] == c;
  }

  /** A getter exactly when the property needs one. */
  function GetterLines(p: PropertyState): (r: seq<string>)
    requires p.name != ""
    ensures |r| == if p.needsGetter then 4 else 0
  {
    if p.needsGetter then
      ["",
       Indentation(1) + "public " + p.typ + " " + GetterName(p.name) + "() {",
       Indentation(2) + "return " + p.name + ";",
       Indentation(1) + "}"]
    else []
  }

  /** A setter exactly when the property is not final, needs one and setters are wanted. */
  function SetterLines(p: PropertyState, withSetters: bool): (r: seq<string>)
    requires p.name != ""
    ensures |r| == if !p.isFinal && p.needsSetter && withSetters then 4 else 0
    ensures p.isFinal ==> r == []
  {
    if !p.isFinal && p.needsSetter && withSetters then
      ["",
       Indentation(1) + "public void " + SetterName(p.name) + "(" + p.typ + " " + p.name + ") {",
       Indentation(2) + "this." + p.name + " = " + p.name + ";",
       Indentation(1) + "}"]
    else []
  }

  function PropertyAccessorLines(p: PropertyState, withSetters: bool): seq<string>
    requires p.name != ""
  {
    GetterLines(p) + SetterLines(p, withSetters)
  }

  predicate NamedProperties(ps: seq<PropertyState>)
  {
    forall i :: 0 <= i < |ps| ==> ps[i].name != ""
  }

  function AccessorLines(ps: seq<PropertyState>, withSetters: bool): seq<string>
    requires NamedProperties(ps)
  {
    if ps == [] then []
    else AccessorLines(ps[..|ps| - 1], withSetters) + PropertyAccessorLines(ps[|ps| - 1], withSetters)
  }

  lemma {:induction false} AccessorLinesAppend(a: seq<PropertyState>, b: seq<PropertyState>, withSetters: bool)
    requires NamedProperties(a) && NamedProperties(b)
    ensures NamedProperties(a + b)
    ensures AccessorLines(a + b, withSetters) == AccessorLines(a, withSetters) + AccessorLines(b, withSetters)
  {
    if b != [] {
      assert (a + b)[..|a + b| - 1] == a + b[..|b| - 1];
      AccessorLinesAppend(a, b[..|b| - 1], withSetters);
    } else {
      assert a + b == a;
    }
  }

  /** Writing one more property appends exactly that property's accessors. */
  lemma AccessorLinesStep(ps: seq<PropertyState>, withSetters: bool, i: nat)
    requires NamedProperties(ps) && i < |ps|
    ensures NamedProperties(ps[..i]) && NamedProperties(ps[..i + 1])
    ensures AccessorLines(ps[..i + 1], withSetters)
      == AccessorLines(ps[..i], withSetters) + PropertyAccessorLines(ps[i], withSetters)
  {
    assert ps[..i + 1][..i] == ps[..i];
  }

  /** Property i's accessors sit between those of the properties before it and after it. */
  lemma AccessorsInPropertyOrder(ps: seq<PropertyState>, withSetters: bool, i: nat)
    requires NamedProperties(ps) && i < |ps|
    ensures AccessorLines(ps, withSetters) == AccessorLines(ps[..i], withSetters)
      + PropertyAccessorLines(ps[i], withSetters) + AccessorLines(ps[i + 1..], withSetters)
  {
    assert ps == ps[..i] + [ps[i]] + ps[i + 1..];
    AccessorLinesAppend(ps[..i] + [ps[i]], ps[i + 1..], withSetters);
    AccessorLinesAppend(ps[..i], [ps[i]], withSetters);
    assert AccessorLines([ps[i]], withSetters) == AccessorLines([], withSetters) + PropertyAccessorLines(ps[i], withSetters);
  }

  // ---------------------------------------------------------------- builder

  /** The first constructor marked for the builder, if any. */
  function FirstForBuilder(cs: seq<ConstructorDefinition>): (r: Option<ConstructorDefinition>)
    ensures r.None? <==> forall i :: 0 <= i < |cs| ==> !cs[i].usedByBuilder
    ensures r.Some? ==> exists i :: 0 <= i < |cs| && cs[i] == r.value && cs[i].usedByBuilder
                               && (forall j :: 0 <= j < i ==> !cs[j].usedByBuilder)
  {
    if cs == [] then None
    else if cs[0].usedByBuilder then Some(cs[0])
    else
      var r := FirstForBuilder(cs[1..]);
      assert forall i :: 1 <= i < |cs| ==> cs[i] == cs[1..][i - 1];
      r
  }

  function BuilderName(singleName: string): string
  {
    singleName + "Builder"
  }

  function BuilderDeclarationLines(singleName: string, typeParameters: seq<string>): seq<string>
  {
    ["", "", Indentation(1) + "public static class " + BuilderName(singleName) + TypeParameterList(typeParameters) + " {"]
  }

  function BuilderField(p: VariableDefinition): seq<string>
  {
    ["", Indentation(2) + "private " + p.typ + " " + p.name + ";"]
  }

  function BuilderFieldLines(ps: seq<VariableDefinition>): (r: seq<string>)
    ensures |r| == 2 * |ps|
  {
    ConcatLength(ps, BuilderField, 2);
    Concat(ps, BuilderField)
  }

  function FluentMethod(singleName: string, p: VariableDefinition): seq<string>
  {
    ["",
     Indentation(2) + "public " + BuilderName(singleName) + " " + p.name + "(" + p.typ + " " + p.name + ") {",
     Indentation(3) + "this." + p.name + " = " + p.name + ";",
     Indentation(3) + "return this;",
     Indentation(2) + "}"]
  }

  function FluentMethodLines(singleName: string, ps: seq<VariableDefinition>): (r: seq<string>)
    ensures |r| == 5 * |ps|
  {
    ConcatLength(ps, p => FluentMethod(singleName, p), 5);
    Concat(ps, p => FluentMethod(singleName, p))
  }

  function BuildMethodLines(singleName: string, ps: seq<VariableDefinition>): seq<string>
  {
    ["",
     Indentation(2) + "public " + singleName + " build() {",
     Indentation(3) + "return new " + singleName + "(" + ArgumentList(ps) + ");",
     Indentation(2) + "}"]
  }

  function BuilderCreatorLines(singleName: string): seq<string>
  {
    ["",
     Indentation(1) + "public static " + BuilderName(singleName) + " builder() {",
     Indentation(2) + "return new " + BuilderName(singleName) + "();",
     Indentation(1) + "}"]
  }

  function ChainCall(p: VariableDefinition): string
  {
    Indentation(3) + "." + p.name + "(" + p.name + ")"
  }

  /** Lines joined by LINE_END and closed by ";": the last line carries the ';'. */
  function Terminated(items: seq<string>): (r: seq<string>)
    ensures |r| == if items == [] then 1 else |items|
  {
    if items == [] then [";"] else items[..|items| - 1] + [items[|items| - 1] + ";"]
  }

  /** Writing the terminated lines writes the items joined by LINE_END, then ";" and LINE_END. */
  lemma {:induction false} TerminatedText(items: seq<string>)
    ensures Text(Terminated(items)) == Join(LINE_END, items) + ";" + LINE_END
  {
    if |items| == 1 {
      assert Terminated(items) == [items[0] + ";"];
      assert Text(Terminated(items)[1..]) == "";
    } else if |items| > 1 {
      var rest := items[1..];
      assert items[..|items| - 1] == [items[0]] + rest[..|rest| - 1];
      assert Terminated(items) == [items[0]] + Terminated(rest);
      assert Terminated(items)[1..] == Terminated(rest);
      TerminatedText(rest);
    }
  }

  function ToBuilderLines(singleName: string, ps: seq<VariableDefinition>): seq<string>
  {
    ["",
     Indentation(1) + "public " + BuilderName(singleName) + " toBuilder() {",
     Indentation(2) + "return new " + BuilderName(singleName) + "()"]
    + Terminated(seq(|ps|, i requires 0 <= i < |ps| => ChainCall(ps[i])))
    + [Indentation(1) + "}"]
  }

  /** The nested builder, builder() and toBuilder() for the builder constructor's parameters. */
  function BuilderSectionLines(singleName: string, typeParameters: seq<string>, ps: seq<VariableDefinition>): seq<string>
  {
    BuilderDeclarationLines(singleName, typeParameters)
    + BuilderFieldLines(ps)
    + FluentMethodLines(singleName, ps)
    + BuildMethodLines(singleName, ps)
    + [Indentation(1) + "}"]
    + BuilderCreatorLines(singleName)
    + ToBuilderLines(singleName, ps)
  }

  function BuilderLines(singleName: string, typeParameters: seq<string>, builder: Option<ConstructorDefinition>): seq<string>
  {
    if builder.None? then [] else BuilderSectionLines(singleName, typeParameters, builder.value.parameters)
  }

  /** The builder section is written exactly when some constructor is marked for the builder. */
  lemma BuilderWrittenIffMarked(singleName: string, typeParameters: seq<string>, cs: seq<ConstructorDefinition>)
    ensures BuilderLines(singleName, typeParameters, FirstForBuilder(cs)) != []
        <==> exists i :: 0 <= i < |cs| && cs[i].usedByBuilder
  {
    var builder := FirstForBuilder(cs);
    if builder.Some? {
      BuilderSectionFrame(singleName, typeParameters, builder.value.parameters);
    }
  }

  /** The builder section declares the nested builder class and ends with toBuilder()'s closing brace. */
  lemma BuilderSectionFrame(singleName: string, typeParameters: seq<string>, ps: seq<VariableDefinition>)
    ensures var r := BuilderSectionLines(singleName, typeParameters, ps);
      && r != []
      && r[2] == Indentation(1) + "public static class " + BuilderName(singleName) + TypeParameterList(typeParameters) + " {"
      && r[|r| - 1] == Indentation(1) + "}"
  {
    var toBuilder := ToBuilderLines(singleName, ps);
    assert toBuilder[|toBuilder| - 1] == Indentation(1) + "}";
    Bracketed(BuilderDeclarationLines(singleName, typeParameters), BuilderFieldLines(ps),
      FluentMethodLines(singleName, ps), BuildMethodLines(singleName, ps), [Indentation(1) + "}"],
      BuilderCreatorLines(singleName), toBuilder);
  }

  /** Seven sections in a row: line 2 comes from the first, the last line from the last. */
  lemma Bracketed<T>(d: seq<T>, f: seq<T>, m: seq<T>, b: seq<T>, e: seq<T>, c: seq<T>, t: seq<T>)
    requires |d| >= 3 && t != []
    ensures var r := d + f + m + b + e + c + t;
      r[2] == d[2] && r[|r| - 1] == t[|t| - 1]
  {
  }

  /** build() calls the builder constructor with its parameters' names, in declared order. */
  lemma BuildCallInDeclaredOrder(singleName: string, typeParameters: seq<string>, ps: seq<VariableDefinition>)
    requires forall i :: 0 <= i < |ps| ==> IsListItem(ps[i].name)
    ensures var r := BuilderSectionLines(singleName, typeParameters, ps);
      && 3 + 7 * |ps| + 2 < |r|
      && r[3 + 7 * |ps| + 2] == Indentation(3) + "return new " + singleName + "(" + ArgumentList(ps) + ");"
      && Items(ArgumentList(ps)) == Names(ps)
  {
    ArgumentsInDeclaredOrder(ps);
    var build := BuildMethodLines(singleName, ps);
    Placed(BuilderDeclarationLines(singleName, typeParameters), BuilderFieldLines(ps),
      FluentMethodLines(singleName, ps), build,
      [Indentation(1) + "}"] + BuilderCreatorLines(singleName) + ToBuilderLines(singleName, ps));
  }

  /** Line 2 of the fourth section sits after the first three. */
  lemma Placed<T>(d: seq<T>, f: seq<T>, m: seq<T>, b: seq<T>, rest: seq<T>)
    requires |b| > 2
    ensures var r := d + f + m + b + rest;
      |d| + |f| + |m| + 2 < |r| && r[|d| + |f| + |m| + 2] == b[2]
  {
  }

  /** Builder field i declares parameter i of the builder constructor. */
  lemma BuilderFieldsInParameterOrder(ps: seq<VariableDefinition>, i: nat)
    requires i < |ps|
    ensures BuilderFieldLines(ps)[2 * i + 1] == Indentation(2) + "private " + ps[i].typ + " " + ps[i].name + ";"
  {
    ConcatAt(ps, BuilderField, 2, i);
    assert BuilderFieldLines(ps)[2 * i .. 2 * i + 2][1] == BuilderFieldLines(ps)[2 * i + 1];
  }

  /** Fluent method i sets parameter i of the builder constructor. */
  lemma FluentMethodsInParameterOrder(singleName: string, ps: seq<VariableDefinition>, i: nat)
    requires i < |ps|
    ensures FluentMethodLines(singleName, ps)[5 * i + 1]
         == Indentation(2) + "public " + BuilderName(singleName) + " " + ps[i].name + "(" + ps[i].typ + " " + ps[i].name + ") {"
  {
    ConcatAt(ps, p => FluentMethod(singleName, p), 5, i);
    assert FluentMethodLines(singleName, ps)[5 * i .. 5 * i + 5][1] == FluentMethodLines(singleName, ps)[5 * i + 1];
  }

  /** Chained call i of toBuilder() passes parameter i to its own fluent method. */
  lemma ToBuilderInParameterOrder(singleName: string, ps: seq<VariableDefinition>, i: nat)
    requires i < |ps|
    ensures |ToBuilderLines(singleName, ps)| == |ps| + 4
    ensures StartsWith(ToBuilderLines(singleName, ps)[3 + i], ChainCall(ps[i]))
  {
    var items := seq(|ps|, j requires 0 <= j < |ps| => ChainCall(ps[j]));
    var chain := Terminated(items);
    assert ToBuilderLines(singleName, ps)[3 + i] == chain[i];
    assert chain[i][..|items[i]|] == items[i];
  }

  // ---------------------------------------------------------------- the whole class

  function SourceLines(b: Bean): (r: seq<string>)
    requires NamedProperties(b.properties)
  {
    var singleName := SingleName(b.qualifiedName);
    PackageLines(PackageName(b.qualifiedName))
    + ImportLines(b.entityTemplate)
    + ClassHeaderLines(b.entityTemplate, b.entityName, b.qualifiedName, b.typeParameters, b.extendsFrom)
    + ConstructorsLines(singleName, b.constructors)
    + AccessorLines(b.properties, b.withSetters)
    + BuilderLines(singleName, b.typeParameters, FirstForBuilder(b.constructors))
    + ["}"]
  }

  /** The class opens with its package line, or its first import in the unnamed package, and closes with "}". */
  lemma SourceOutline(b: Bean)
    requires NamedProperties(b.properties)
    ensures var r, packageName := SourceLines(b), PackageName(b.qualifiedName);
      && r != [] && r[|r| - 1] == "}"
      && (packageName != "" ==> r[0] == "package " + packageName + ";" && r[1] == "")
      && (packageName == "" ==> r[0] == "import " + GENERATED_IMPORT + ";")
  {
    ImportBlock(b.entityTemplate);
    var singleName := SingleName(b.qualifiedName);
    Framed(PackageLines(PackageName(b.qualifiedName)), ImportLines(b.entityTemplate),
      ClassHeaderLines(b.entityTemplate, b.entityName, b.qualifiedName, b.typeParameters, b.extendsFrom),
      ConstructorsLines(singleName, b.constructors), AccessorLines(b.properties, b.withSetters),
      BuilderLines(singleName, b.typeParameters, FirstForBuilder(b.constructors)), "}");
  }

  /** Seven sections in a row: the last is the final line, the first two lines come from the first non-empty one. */
  lemma Framed<T>(p: seq<T>, i: seq<T>, h: seq<T>, c: seq<T>, a: seq<T>, l: seq<T>, last: T)
    requires i != []
    ensures var r := p + i + h + c + a + l + [last];
      && r[|r| - 1] == last
      && (p == [] ==> r[0] == i[0])
      && (|p| >= 2 ==> r[0] == p[0] && r[1] == p[1])
  {
  }
}
