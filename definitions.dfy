/**
 * The two immutable records the generator passes around: a typed name and a constructor
 * of the bean to generate.
 */
module Definitions {
  import opened Wrappers

  /** A parameter of a constructor: its simple name and its type as source text. */
  datatype VariableDefinition = VariableDefinition(name: string, typ: string)

  /**
   * A constructor of the bean to generate. The access modifier is None where the
   * discovery found neither `protected` nor `public` (Java's null).
   */
  datatype ConstructorDefinition = ConstructorDefinition(
    accessModifier: Option<string>,
    parameters: seq<VariableDefinition>,
    usedByBuilder: bool)
}
