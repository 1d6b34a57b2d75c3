/** A field of the bean to generate, with the flags that decide its accessors. */
module PropertyDefinitions {
  import opened Definitions

  /** The value of a PropertyDefinition at one moment. */
  datatype PropertyState = PropertyState(
    name: string,
    typ: string,
    isFinal: bool,
    needsGetter: bool,
    needsSetter: bool)

  /** A property whose name and type are fixed and whose three flags are updated in place. */
  class PropertyDefinition {
    const name: string
    const typ: string
    var isFinal: bool
    var needsGetter: bool
    var needsSetter: bool

    /** A new property is not final and needs both a getter and a setter. */
    constructor (name: string, typ: string)
      ensures State() == PropertyState(name, typ, false, true, true)
    {
      this.name := name;
      this.typ := typ;
      isFinal := false;
      needsGetter := true;
      needsSetter := true;
    }

    function State(): PropertyState
      reads this
    {
      PropertyState(name, typ, isFinal, needsGetter, needsSetter)
    }

    method SetFinal(aFinal: bool)
      modifies this`isFinal
      ensures State() == old(State()).(isFinal := aFinal)
    {
      isFinal := aFinal;
    }

    method SetNeedsGetter(needsGetter: bool)
      modifies this`needsGetter
      ensures State() == old(State()).(needsGetter := needsGetter)
    {
      this.needsGetter := needsGetter;
    }

    method SetNeedsSetter(needsSetter: bool)
      modifies this`needsSetter
      ensures State() == old(State()).(needsSetter := needsSetter)
    {
      this.needsSetter := needsSetter;
    }

    /** The property seen as a typed name: the same name and the same type. */
    function AsVariableDefinition(): (v: VariableDefinition)
      ensures v.name == name && v.typ == typ
    {
      VariableDefinition(name, typ)
    }
  }

  /** The states of a list of properties, in list order. */
  function States(ps: seq<PropertyDefinition>): (r: seq<PropertyState>)
    reads set p | p in ps
    ensures |r| == |ps|
    ensures forall i :: 0 <= i < |ps| ==> r[i] == ps[i].State()
  {
    if ps == [] then [] else States(ps[..|ps| - 1]) + [ps[|ps| - 1].State()]
  }
}
