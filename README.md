# bean-templates in Dafny

A model of the core of the bean-templates annotation processor, with proofs. The processor
reads a template class and writes the source of a companion "bean" class for it. The bean
extends the template and has:

- pass-through constructors;
- getters, and setters where wanted;
- an optional nested fluent builder with `builder()` and `toBuilder()`.

The model has three parts, which follow the three core classes.

- `BeanDefinitions.BeanDefinition` (`bean_definition.dfy`) is a class that holds the bean
  definition.
  - Its `Set…` methods update the definition in place. A missing list becomes the empty list.
  - Its `Write…` methods append lines to a `LineWriter`.
  - Each write method is proved against a pure function in module `BeanText`
    (`bean_text.dfy`): `writer.lines == old(writer.lines) + <section>`.
  - The properties of the generated text (order, presence and absence, argument lists) are
    proved as lemmas about those functions.
- `PropertyDefinitions.PropertyDefinition` (`property_definition.dfy`) is a class. Its name and
  type are fixed, and its three flags are changed in place. `PropertyState` is its value at one
  moment.
- `BeanTemplateProcessor` (`bean_template_processor.dfy`) holds the discovery rules. The
  compiler's element API is replaced by plain facts: `FieldFacts`, `MethodFacts` and
  `ConstructorFacts`, made of names, type strings and modifier sets.
  - Bean naming and constructor selection are functions.
  - The property discovery is an imperative method. It creates `PropertyDefinition` objects,
    keys them by name in a map, and clears their flags through the getter and setter checks.
    It is proved against the functional reference `InferredProperties`.
  - The end-to-end lemmas connect the discovery to the emitter: a hand-written accessor
    suppresses the generated one.

`Strings` (`strings.dfy`) holds the `java.lang.String` operations the code uses:

- `indexOf` and `lastIndexOf`;
- `String.join` and `Collectors.joining`;
- `Collections.sort`;
- ASCII upper- and lower-casing of one character.

`Definitions` holds the two immutable records, `VariableDefinition` and
`ConstructorDefinition`. `Wrappers` holds `Option` and `Result`.

The output is modelled as a sequence of lines, and the writer ends each one with `LINE_END`.
Each write step the model keeps ends its last line with `LINE_END`, so each write adds whole
lines; `writeTypeParameters` and the `@Entity` pieces, which end mid-line in the code, are folded
into the line they continue.
`BeanText.Text` gives the characters written, and `BeanText.TerminatedText` proves this for the
one place where lines are joined inside a single append (the `toBuilder()` chain).

Some behaviour of the code is kept even where it looks unintended:

- A constructor with neither `public` nor `protected` gets the access modifier `null`.
  `Writer.append(null)` writes the text `null`, so the model writes `null` too.
- When several constructors are marked `@Builder`, the first one in list order backs the
  builder.
- Properties are returned in field declaration order. The code returns the values of a
  `HashMap`, whose order is unspecified.

One behaviour is not kept: the superclass name in the class declaration. The emitter uses the
corrected `BeanText.InferSuperClassName`; the code as written is `BeanText.InferSuperClassNameAsWritten`,
and the two differ only in the unnamed package (see "## Findings").

## Model

Source paths are relative to the repository root.

| member | source | states |
|---|---|---|
| Strings.IndexOf | src/main/java/au/id/villar/utils/beangen/BeanDefinition.java:42 | -1 exactly when the character is absent; otherwise its first position |
| Strings.LastIndexOf | src/main/java/au/id/villar/utils/beangen/BeanDefinition.java:43 | -1 exactly when the character is absent; otherwise its last position, with no occurrence after it |
| Strings.Sort | src/main/java/au/id/villar/utils/beangen/BeanDefinition.java:138 | `Collections.sort` gives a sorted permutation of the list |
| Strings.SortOfSorted | src/main/java/au/id/villar/utils/beangen/BeanDefinition.java:138 | sorting an already sorted list leaves it unchanged |
| Strings.Capitalize | src/main/java/au/id/villar/utils/beangen/BeanDefinition.java:186-187 | same length; the first character is upper-cased (code minus 32) when it is an ASCII lower-case letter and kept otherwise; the rest unchanged |
| Strings.Decapitalize | src/main/java/au/id/villar/utils/beangen/BeanTemplateProcessor.java:203 | same length; the first character is lower-cased (code plus 32) when it is an ASCII capital and kept otherwise; the rest unchanged |
| Strings.DecapitalizeCapitalize | src/main/java/au/id/villar/utils/beangen/BeanTemplateProcessor.java:203 | decapitalising undoes capitalising for a name that does not start with a capital |
| Strings.ItemsOfJoin | src/main/java/au/id/villar/utils/beangen/BeanDefinition.java:221-223 | items joined with ", " read back as the same items in the same order |
| BeanText.Indentation | src/main/java/au/id/villar/utils/beangen/BeanDefinition.java:318-320 | `indentation(n)` is exactly n tab characters |
| BeanText.AccessorNamesSpelled | src/main/java/au/id/villar/utils/beangen/BeanDefinition.java:185-197 | accessor names are "get" or "set", then the first character of the name upper-cased (code minus 32 for a lower-case ASCII letter, kept otherwise), then the rest of the name unchanged |
| BeanText.PackageName | src/main/java/au/id/villar/utils/beangen/BeanDefinition.java:42-44 | "" without a dot; otherwise a proper prefix of the name that is followed by '.' |
| BeanText.SingleName | src/main/java/au/id/villar/utils/beangen/BeanDefinition.java:46-48 | dot-free; the whole name without a dot; otherwise `packageName + "." + singleName == qualifiedName` |
| BeanText.QualifiedNameSplits | src/main/java/au/id/villar/utils/beangen/BeanDefinition.java:42-48 | a package joined by '.' to a dot-free name splits back into exactly those two |
| BeanText.InferSuperClassNameAsWritten | src/main/java/au/id/villar/utils/beangen/BeanDefinition.java:228-237 | the code's own reading: the qualified name for a superclass in another package, the simple name in the same named package, and the name without its first character when both packages are empty; UnnamedPackageLosesFirstCharacter and SuperClassNameAgreesOutsideUnnamedPackage relate it to the corrected InferSuperClassName |
| BeanText.InferSuperClassName | src/main/java/au/id/villar/utils/beangen/BeanDefinition.java:228-237 | the simple name when the superclass is in the bean's package, the qualified name otherwise (corrected reading) |
| BeanText.SuperClassNameAgreesOutsideUnnamedPackage | src/main/java/au/id/villar/utils/beangen/BeanDefinition.java:228-237 | the code as written and the corrected reading agree unless both packages are empty |
| BeanText.UnnamedPackageLosesFirstCharacter | src/main/java/au/id/villar/utils/beangen/BeanDefinition.java:234-235 | as written, superclass "Base" in the unnamed package is referred to as "ase"; corrected, as "Base" |
| BeanText.TypeParametersInDeclaredOrder | src/main/java/au/id/villar/utils/beangen/BeanDefinition.java:206-210 | nothing is written without type parameters; otherwise they are written between `<` and `>` and read back in declared order |
| BeanText.ClassHeaderShape | src/main/java/au/id/villar/utils/beangen/BeanDefinition.java:154-167 | the Generated annotation first, an `@Entity` line exactly for an entity template, and then the declaration, where the class's simple name is followed by its type parameter list |
| BeanText.PackageLines | src/main/java/au/id/villar/utils/beangen/BeanDefinition.java:146-152 | no package lines exactly when the package name is empty |
| BeanText.ImportsAlreadySorted | src/main/java/au/id/villar/utils/beangen/BeanDefinition.java:129-138 | sorting the import list leaves it in the order it was built |
| BeanText.ImportBlock | src/main/java/au/id/villar/utils/beangen/BeanDefinition.java:128-144 | the Generated import, then the Entity import exactly for entity templates, then one blank line |
| BeanText.ArgumentsInDeclaredOrder | src/main/java/au/id/villar/utils/beangen/BeanDefinition.java:220-223 | the `super(...)` argument list reads back as the parameter names in declared order |
| BeanText.ConstructorsLines | src/main/java/au/id/villar/utils/beangen/BeanDefinition.java:169-179 | an empty list gives exactly one `public` no-argument constructor calling `super()`; otherwise four lines per constructor |
| BeanText.ConstructorWrittenInOrder | src/main/java/au/id/villar/utils/beangen/BeanDefinition.java:212-226 | constructor i occupies lines 4i to 4i+4: its `type name` declarations and a `super` call with the same names in the same order |
| BeanText.PackagePrivateConstructorWrittenAsNull | src/main/java/au/id/villar/utils/beangen/BeanDefinition.java:215 | a constructor with no access modifier is written with the word `null` in its place |
| BeanText.GetterLines | src/main/java/au/id/villar/utils/beangen/BeanDefinition.java:184-191 | a getter (four lines) exactly when the property needs one, nothing otherwise |
| BeanText.SetterLines | src/main/java/au/id/villar/utils/beangen/BeanDefinition.java:193-202 | a setter exactly when the property is not final, needs one and setters are wanted; never for a final property |
| BeanText.AccessorsInPropertyOrder | src/main/java/au/id/villar/utils/beangen/BeanDefinition.java:183-203 | property i's accessors sit between those of the properties before it and those after it |
| BeanText.FirstForBuilder | src/main/java/au/id/villar/utils/beangen/BeanDefinition.java:97-100 | none exactly when no constructor is marked; otherwise the marked constructor with no marked one before it |
| BeanText.BuilderWrittenIffMarked | src/main/java/au/id/villar/utils/beangen/BeanDefinition.java:241-243 | the builder section is non-empty exactly when some constructor is marked for the builder |
| BeanText.BuildCallInDeclaredOrder | src/main/java/au/id/villar/utils/beangen/BeanDefinition.java:282-290 | `build()` returns a new bean built from the builder constructor's parameter names, which read back in declared order |
| BeanText.BuilderSectionFrame | src/main/java/au/id/villar/utils/beangen/BeanDefinition.java:254-316 | the builder section declares the nested builder class with the type parameters and ends with `toBuilder()`'s closing brace |
| BeanText.BuilderFieldLines | src/main/java/au/id/villar/utils/beangen/BeanDefinition.java:261-267 | two lines per builder parameter |
| BeanText.BuilderFieldsInParameterOrder | src/main/java/au/id/villar/utils/beangen/BeanDefinition.java:261-267 | builder field i declares parameter i with its type |
| BeanText.FluentMethodLines | src/main/java/au/id/villar/utils/beangen/BeanDefinition.java:269-280 | five lines per builder parameter |
| BeanText.FluentMethodsInParameterOrder | src/main/java/au/id/villar/utils/beangen/BeanDefinition.java:269-280 | fluent method i is named after parameter i and takes its type |
| BeanText.ToBuilderInParameterOrder | src/main/java/au/id/villar/utils/beangen/BeanDefinition.java:305-316 | `toBuilder()` has one chained-call line per parameter, and line i calls parameter i's fluent method with that parameter |
| BeanText.Terminated | src/main/java/au/id/villar/utils/beangen/BeanDefinition.java:311-314 | one line per chained call, or a lone ";" when there is none |
| BeanText.TerminatedText | src/main/java/au/id/villar/utils/beangen/BeanDefinition.java:311-314 | the written characters are the calls joined by LINE_END, then ";" and LINE_END |
| BeanText.SourceOutline | src/main/java/au/id/villar/utils/beangen/BeanDefinition.java:111-122 | the class starts with the package line and a blank line, or the Generated import in the unnamed package, and ends with "}" |
| BeanDefinitions.SourceAssembled | src/main/java/au/id/villar/utils/beangen/BeanDefinition.java:111-122 | package, imports, header, constructors, accessors, builder and "}" written in turn make up the whole class |
| BeanDefinitions.BeanDefinition.constructor | src/main/java/au/id/villar/utils/beangen/BeanDefinition.java:36-49 | package and simple name split from the qualified name; no constructors, no builder constructor, no properties, no type parameters |
| BeanDefinitions.BeanDefinition.SetEntityName | src/main/java/au/id/villar/utils/beangen/BeanDefinition.java:71-73 | only the entity name changes |
| BeanDefinitions.BeanDefinition.SetWithSetters | src/main/java/au/id/villar/utils/beangen/BeanDefinition.java:79-81 | only the setters flag changes |
| BeanDefinitions.BeanDefinition.SetTypeParameters | src/main/java/au/id/villar/utils/beangen/BeanDefinition.java:87-89 | a missing list becomes the empty list |
| BeanDefinitions.BeanDefinition.SetConstructors | src/main/java/au/id/villar/utils/beangen/BeanDefinition.java:95-101 | a missing list becomes the empty list; the builder constructor is again the first marked one |
| BeanDefinitions.BeanDefinition.SetProperties | src/main/java/au/id/villar/utils/beangen/BeanDefinition.java:107-109 | a missing list becomes the empty list |
| BeanDefinitions.BeanDefinition.WriteSourceCode | src/main/java/au/id/villar/utils/beangen/BeanDefinition.java:111-122 | appends exactly the text of the whole class for the definition and its properties' current flags |
| BeanDefinitions.BeanDefinition.WriteClassEnding | src/main/java/au/id/villar/utils/beangen/BeanDefinition.java:124-126 | appends the closing "}" |
| BeanDefinitions.BeanDefinition.WriteImports | src/main/java/au/id/villar/utils/beangen/BeanDefinition.java:128-144 | the loop over the sorted list appends exactly the import block |
| BeanDefinitions.BeanDefinition.WritePackage | src/main/java/au/id/villar/utils/beangen/BeanDefinition.java:146-152 | appends the package lines, which are none in the unnamed package |
| BeanDefinitions.BeanDefinition.WriteClassNameDeclaration | src/main/java/au/id/villar/utils/beangen/BeanDefinition.java:154-167 | appends the Generated annotation, the Entity annotation for entity templates, and the class declaration |
| BeanDefinitions.BeanDefinition.WriteConstructors | src/main/java/au/id/villar/utils/beangen/BeanDefinition.java:169-179 | appends the declared constructors in order, or the default one |
| BeanDefinitions.BeanDefinition.WriteConstructor | src/main/java/au/id/villar/utils/beangen/BeanDefinition.java:212-226 | appends that constructor's four lines |
| BeanDefinitions.BeanDefinition.WriteGettersAndSetters | src/main/java/au/id/villar/utils/beangen/BeanDefinition.java:181-204 | the loop appends every property's accessors, in property order |
| BeanDefinitions.BeanDefinition.WriteAccessors | src/main/java/au/id/villar/utils/beangen/BeanDefinition.java:184-202 | appends one property's getter if needed, then its setter if allowed |
| BeanDefinitions.BeanDefinition.WriteBuilder | src/main/java/au/id/villar/utils/beangen/BeanDefinition.java:239-252 | appends nothing without a builder constructor, otherwise the builder section for its parameters |
| BeanDefinitions.BeanDefinition.WriteBuilderPrivateProperties | src/main/java/au/id/villar/utils/beangen/BeanDefinition.java:261-267 | the loop appends one private field per parameter, in order |
| BeanDefinitions.BeanDefinition.WriteBuilderFluidMethods | src/main/java/au/id/villar/utils/beangen/BeanDefinition.java:269-280 | the loop appends one fluent method per parameter, in order |
| PropertyDefinitions.PropertyDefinition.constructor | src/main/java/au/id/villar/utils/beangen/PropertyDefinition.java:4-13 | given name and type; not final; needs a getter and a setter |
| PropertyDefinitions.PropertyDefinition.SetFinal | src/main/java/au/id/villar/utils/beangen/PropertyDefinition.java:27-29 | only `isFinal` changes |
| PropertyDefinitions.PropertyDefinition.SetNeedsGetter | src/main/java/au/id/villar/utils/beangen/PropertyDefinition.java:35-37 | only `needsGetter` changes |
| PropertyDefinitions.PropertyDefinition.SetNeedsSetter | src/main/java/au/id/villar/utils/beangen/PropertyDefinition.java:43-45 | only `needsSetter` changes |
| PropertyDefinitions.PropertyDefinition.AsVariableDefinition | src/main/java/au/id/villar/utils/beangen/PropertyDefinition.java:47-49 | a variable with the same name and type |
| BeanTemplateProcessor.InferGeneratedBeanName | src/main/java/au/id/villar/utils/beangen/BeanTemplateProcessor.java:101-121 | a dotted type name as given; a dot-free one placed in the template's package and joined to it by '.', even when the package is unnamed, and an error for an inner class; otherwise the template name without "Template", and an error naming the template when it lacks that suffix |
| BeanTemplateProcessor.TemplateNameRoundTrip | src/main/java/au/id/villar/utils/beangen/BeanTemplateProcessor.java:109-114 | the template `<Bean>Template` without a type name gives back exactly `<Bean>` |
| BeanTemplateProcessor.ToConstructorDefinition | src/main/java/au/id/villar/utils/beangen/BeanTemplateProcessor.java:150-167 | `protected` if present, else `public` if present, else none; the same parameters in order; for the builder exactly when annotated |
| BeanTemplateProcessor.NonPrivate | src/main/java/au/id/villar/utils/beangen/BeanTemplateProcessor.java:132-136 | exactly the constructors without `private` are kept |
| BeanTemplateProcessor.NonPrivateAppend | src/main/java/au/id/villar/utils/beangen/BeanTemplateProcessor.java:132-136 | filtering keeps declaration order: filtering a concatenation concatenates the filtered parts |
| BeanTemplateProcessor.KeptConstructors | src/main/java/au/id/villar/utils/beangen/BeanTemplateProcessor.java:132-138 | one definition per kept constructor, in order |
| BeanTemplateProcessor.InferConstructors | src/main/java/au/id/villar/utils/beangen/BeanTemplateProcessor.java:131-144 | the kept constructors unchanged, followed by a public no-argument one exactly when it is asked for and none of them takes no arguments |
| BeanTemplateProcessor.NoArgsConstructorProvided | src/main/java/au/id/villar/utils/beangen/BeanTemplateProcessor.java:139-143 | when asked for, a no-argument constructor is always in the result |
| BeanTemplateProcessor.AddedConstructorNotForBuilder | src/main/java/au/id/villar/utils/beangen/BeanTemplateProcessor.java:142 | the added constructor never changes which constructor backs the builder |
| BeanTemplateProcessor.InitialState | src/main/java/au/id/villar/utils/beangen/BeanTemplateProcessor.java:186-191 | the field's name and type; final exactly when the field is; both accessors needed |
| BeanTemplateProcessor.NonStatic | src/main/java/au/id/villar/utils/beangen/BeanTemplateProcessor.java:174 | exactly the fields without `static` |
| BeanTemplateProcessor.InitialMap | src/main/java/au/id/villar/utils/beangen/BeanTemplateProcessor.java:171-176 | a key exactly for each field name, holding that field's initial property |
| BeanTemplateProcessor.GetterTarget | src/main/java/au/id/villar/utils/beangen/BeanTemplateProcessor.java:198-203 | a target exactly for a method without parameters whose name is longer than three characters and starts with "get"; the target is the decapitalised rest |
| BeanTemplateProcessor.SetterTarget | src/main/java/au/id/villar/utils/beangen/BeanTemplateProcessor.java:208-213 | a target exactly for a method with one parameter whose name is longer than three characters and starts with "set"; the target is the decapitalised rest |
| BeanTemplateProcessor.GetterNameRecognised | src/main/java/au/id/villar/utils/beangen/BeanTemplateProcessor.java:198-203 | the getter name the emitter would write is recognised as that property's getter |
| BeanTemplateProcessor.SetterNameRecognised | src/main/java/au/id/villar/utils/beangen/BeanTemplateProcessor.java:208-213 | the setter name the emitter would write is recognised as that property's setter |
| BeanTemplateProcessor.CapitalisedFieldGetterNotRecognised | src/main/java/au/id/villar/utils/beangen/BeanTemplateProcessor.java:203 | the getter `getURL` of a field `URL` is taken to be about the property `uRL` |
| BeanTemplateProcessor.AfterGetterCheck | src/main/java/au/id/villar/utils/beangen/BeanTemplateProcessor.java:198-206 | same keys; only the matched property loses `needsGetter`; nothing changes when nothing matches |
| BeanTemplateProcessor.AfterSetterCheck | src/main/java/au/id/villar/utils/beangen/BeanTemplateProcessor.java:208-217 | same keys; only a property matched by name and parameter type loses `needsSetter`; nothing else changes |
| BeanTemplateProcessor.AfterChecks | src/main/java/au/id/villar/utils/beangen/BeanTemplateProcessor.java:178-181 | checking every method keeps the keys and the names |
| BeanTemplateProcessor.AfterMethodCheckFlags | src/main/java/au/id/villar/utils/beangen/BeanTemplateProcessor.java:193-196 | one method clears a property's getter flag if it is its getter, and its setter flag if it is its setter with its type |
| BeanTemplateProcessor.AfterChecksFlags | src/main/java/au/id/villar/utils/beangen/BeanTemplateProcessor.java:178-181 | after all methods, a property needs a getter exactly when it did and no method is its getter, and likewise for setters with their type |
| BeanTemplateProcessor.InferredProperties | src/main/java/au/id/villar/utils/beangen/BeanTemplateProcessor.java:169-184 | one property per non-static field, named after it |
| BeanTemplateProcessor.InferredFlags | src/main/java/au/id/villar/utils/beangen/BeanTemplateProcessor.java:169-191 | property i has field i's name and type, is final exactly when the field is, needs a getter exactly when no method is its getter, and needs a setter exactly when no method is its setter with its type |
| BeanTemplateProcessor.HandWrittenGetterSuppressesGeneratedGetter | src/main/java/au/id/villar/utils/beangen/BeanTemplateProcessor.java:198-206 | end to end: a hand-written getter with the emitter's name means no getter is generated |
| BeanTemplateProcessor.HandWrittenSetterSuppressesGeneratedSetter | src/main/java/au/id/villar/utils/beangen/BeanTemplateProcessor.java:208-217 | end to end: a hand-written setter with the emitter's name and the field's type means no setter is generated |
| BeanTemplateProcessor.GetterGeneratedWithoutHandWrittenOne | src/main/java/au/id/villar/utils/beangen/BeanTemplateProcessor.java:198-206 | without a method that is its getter, a property gets a generated getter |
| BeanTemplateProcessor.LoneSetterDecidedByType | src/main/java/au/id/villar/utils/beangen/BeanTemplateProcessor.java:208-213 | for one non-static field and one method named as its setter, the setter is still generated exactly when the method's parameter type differs from the field's type |
| BeanTemplateProcessor.SetterOfOtherTypeIgnored | src/test/java/au/id/villar/utils/beangen/TestingBean.java:45-51 | for field `int[] scores`, `setScores(java.lang.String[])` leaves the setter to be generated and `setScores(int[])` suppresses it |
| BeanTemplateProcessor.ToPropertyDefinition | src/main/java/au/id/villar/utils/beangen/BeanTemplateProcessor.java:186-191 | a new property in the field's initial state |
| BeanTemplateProcessor.CheckForGetter | src/main/java/au/id/villar/utils/beangen/BeanTemplateProcessor.java:198-206 | the states in the map change exactly as the getter check says |
| BeanTemplateProcessor.CheckForSetter | src/main/java/au/id/villar/utils/beangen/BeanTemplateProcessor.java:208-217 | the states in the map change exactly as the setter check says |
| BeanTemplateProcessor.CheckWithFields | src/main/java/au/id/villar/utils/beangen/BeanTemplateProcessor.java:193-196 | the getter check, then the setter check |
| BeanTemplateProcessor.CollectByName | src/main/java/au/id/villar/utils/beangen/BeanTemplateProcessor.java:171-176 | one new object per field, keyed by its name, with distinct objects under distinct names and the states of the initial map |
| BeanTemplateProcessor.CollectedStates | src/main/java/au/id/villar/utils/beangen/BeanTemplateProcessor.java:171-176 | a map holding each field's property under its name has the states of the initial map |
| BeanTemplateProcessor.CollectedDistinct | src/main/java/au/id/villar/utils/beangen/BeanTemplateProcessor.java:171-176 | distinct fields give distinct objects, so no two names share one |
| BeanTemplateProcessor.CheckAllMethods | src/main/java/au/id/villar/utils/beangen/BeanTemplateProcessor.java:178-181 | the loop over the methods changes the states exactly as checking every method in order says |
| BeanTemplateProcessor.InferPropertyList | src/main/java/au/id/villar/utils/beangen/BeanTemplateProcessor.java:169-184 | new property objects whose states are exactly the functional reference's properties |
| BeanTemplateProcessor.CreateBeanDefinition | src/main/java/au/id/villar/utils/beangen/BeanTemplateProcessor.java:62-81 | fails exactly when the bean name cannot be inferred, with that message; otherwise a new valid definition is named by the inferred bean name and extends the template's own qualified name. An entity template takes the entity name and always gets setters; any other template gets setters only when its attribute is true. The constructors and properties are the inferred ones |
| BeanTemplateProcessor.NewDefinition | src/main/java/au/id/villar/utils/beangen/BeanTemplateProcessor.java:62-73 | a new valid definition with the entity name set only for an entity template, and setters for an entity template or when the attribute is true |
| BeanTemplateProcessor.SetDiscovered | src/main/java/au/id/villar/utils/beangen/BeanTemplateProcessor.java:75-77 | sets the type parameters, constructors and properties, keeps the entity name, the setters flag and `Valid`, and leaves the properties' states unchanged |

## Left out

- The compiler's element API is not modelled: element walking, `asType().toString()`, and
  reading annotation attributes in `getValueFromAnnotationAttribute`. Its results are the
  parameters `FieldFacts`, `MethodFacts`, `ConstructorFacts`, `typeName`, `noArgsConstructor`
  and `enclosingPackage`.
- `process`, `generateSourceCode`, `getSupportedAnnotationTypes` and
  `getSupportedSourceVersion` are not modelled. They are the processor's wiring to the
  compiler: `Filer`, `Messager` diagnostics, `IOException` and `UncheckedIOException`.
  `inferEntityName`, `inferWithSetters` and `inferTypeParameters` only read annotation
  attributes or the element's type parameters, so they are left out for the same reason.
- BeanTemplateProcessor.CreateBeanDefinition: whether the annotation is `@BeanTemplate`, and
  the values of the `name` and `setters` attributes and the element's type parameters, are
  parameters. The property list is inferred before the definition is allocated rather than
  after. The two do not share any object, so the result is the same. The constructor and
  setter calls are grouped into `NewDefinition` and `SetDiscovered`.
- BeanTemplateProcessor.InferGeneratedBeanName: the error path returns the message. The code also reports it
  through the `Messager` before throwing. `inferPackageName`'s inner-class test becomes a
  missing `enclosingPackage`.
- `java.io.Writer` is a `LineWriter` that collects whole lines. `System.lineSeparator()` is
  fixed to "\n".
- `Character.toUpperCase` and `Character.toLowerCase` are modelled on ASCII letters only, not
  on full Unicode. Names are required to be non-empty because the code calls `charAt(0)`.
- BeanTemplateProcessor.InferPropertyList: properties come back in field declaration order.
  The code returns `HashMap` values, whose order is unspecified.
- BeanTemplateProcessor.InferPropertyList and BeanTemplateProcessor.CollectByName require
  unique field names. `Collectors.toMap` would throw on a duplicate key, but the compiler never
  produces two fields with the same name.
- `writeBuilderNameDeclaration`, `writeBuilderBuildMethod`, `writeBuilderClassEnding`,
  `writeBuilderCreatorMethod`, `writeBuilderToBuilderMethod` and `writeTypeParameters` are not
  separate methods. `WriteBuilder` and `WriteClassNameDeclaration` write the lines given by
  `BuilderDeclarationLines`, `BuildMethodLines`, `BuilderCreatorLines`, `ToBuilderLines` and
  `TypeParameterList`. These functions have no contracts of their own. Their content is stated
  by `BuilderSectionFrame`, `BuildCallInDeclaredOrder`, `ToBuilderInParameterOrder`,
  `TypeParametersInDeclaredOrder` and `ClassHeaderShape`.
- The simple getters of `BeanDefinition` and `PropertyDefinition` are the model's fields.
- The `VariableDefinition` and `ConstructorDefinition` records are modelled from their
  accessors as the datatypes in `definitions.dfy`.
- `BeanTemplate.java` and `Bean.java` are annotation declarations with no logic.
- BeanDefinitions.BeanDefinition.WriteClassNameDeclaration writes the corrected superclass name
  (`BeanText.InferSuperClassName`), not the code's: for a template `FooTemplate` in the unnamed
  package it writes `extends FooTemplate` where the code writes `extends ooTemplate`. The code's
  behaviour is `BeanText.InferSuperClassNameAsWritten`, recorded under "## Findings".
- BeanDefinitions.BeanDefinition.WriteSourceCode and BeanText.ClassDeclaration carry the same
  difference: in the unnamed package their class declaration names the superclass in full.

## Findings

| source | as written | input that shows it | evidently intended | confidence | as-written member | corrected member |
|---|---|---|---|---|---|---|
| src/main/java/au/id/villar/utils/beangen/BeanDefinition.java:234-235 | when the superclass's package equals the bean's package, the name is cut after position `length + 1`, even when both packages are empty and there is no '.' to skip | a template `Base` in the unnamed package: the bean is declared `extends ase` | the simple name of a superclass in the same package, i.e. `extends Base` | not executed | BeanText.InferSuperClassNameAsWritten (shown by BeanText.UnnamedPackageLosesFirstCharacter) | BeanText.InferSuperClassName (used by the emitter; BeanText.SuperClassNameAgreesOutsideUnnamedPackage) |
