/**
 * Named types produced by substitution: a generic type constructed with type
 * arguments (`List<int>`), and a type nested in a substituted container.
 */
module ConstructedNamedType {
  import opened Wrappers

  /** A type: a type parameter (known by its identity) or another type. */
  datatype TypeSymbol = TypeParameterType(parameter: nat) | OtherType(identity: nat)

  /** A type argument with its custom modifiers; None is a default (uninitialised) array. */
  datatype TypeWithModifiers = TypeWithModifiers(typeSymbol: TypeSymbol, customModifiers: Option<seq<nat>>)
  {
    predicate HasCustomModifiers()
    {
      customModifiers.Some? && |customModifiers.value| > 0
    }

    /** The modifiers, with a default array read as empty. */
    function Modifiers(): (r: seq<nat>)
      ensures |r| > 0 <==> HasCustomModifiers()
    {
      if customModifiers.Some? then customModifiers.value else []
    }

    /** The argument is the type parameter itself, without modifiers. */
    predicate Is(typeParameter: nat)
    {
      typeSymbol == TypeParameterType(typeParameter) && !HasCustomModifiers()
    }
  }

  /** The generic definition being constructed from. */
  datatype NamedType = NamedType(identity: nat, typeParameters: seq<nat>)
  {
    function Arity(): nat
    {
      |typeParameters|
    }
  }

  /**
   * The constructor's projection of the arguments: their types in order, and
   * whether any argument carries custom modifiers.
   */
  method SelectTypeArguments(typeArguments: seq<TypeWithModifiers>)
    returns (types: seq<TypeSymbol>, hasTypeArgumentsCustomModifiers: bool)
    ensures |types| == |typeArguments|
    ensures forall i :: 0 <= i < |typeArguments| ==> types[i] == typeArguments[i].typeSymbol
    ensures hasTypeArgumentsCustomModifiers <==> exists i :: 0 <= i < |typeArguments| && typeArguments[i].HasCustomModifiers()
  {
    hasTypeArgumentsCustomModifiers := false;
    types := [];
    for k := 0 to |typeArguments|
      invariant |types| == k
      invariant forall i :: 0 <= i < k ==> types[i] == typeArguments[i].typeSymbol
      invariant hasTypeArgumentsCustomModifiers <==> exists i :: 0 <= i < k && typeArguments[i].HasCustomModifiers()
    {
      var a := typeArguments[k];
      if a.HasCustomModifiers() {
        hasTypeArgumentsCustomModifiers := true;
      }
      types := types + [a.typeSymbol];
    }
  }

  /** One empty modifier list per type argument. */
  function EmptyTypeArgumentsCustomModifiers(arity: nat): (r: seq<seq<nat>>)
    ensures |r| == arity && forall i :: 0 <= i < arity ==> r[i] == []
  {
    seq(arity, _ => [])
  }

  class ConstructedNamedTypeSymbol {
    const constructedFrom: NamedType
    const typeArgumentsWithModifiers: seq<TypeWithModifiers>
    const typeArguments: seq<TypeSymbol>
    const hasTypeArgumentsCustomModifiers: bool
    const unbound: bool

    ghost predicate Valid()
    {
      |typeArguments| == |typeArgumentsWithModifiers| == constructedFrom.Arity()
      && (forall i :: 0 <= i < |typeArguments| ==> typeArguments[i] == typeArgumentsWithModifiers[i].typeSymbol)
      && (hasTypeArgumentsCustomModifiers <==>
            exists i :: 0 <= i < |typeArgumentsWithModifiers| && typeArgumentsWithModifiers[i].HasCustomModifiers())
    }

    constructor (constructedFrom: NamedType, typeArguments: seq<TypeWithModifiers>, unbound: bool)
      requires constructedFrom.Arity() == |typeArguments|
      requires constructedFrom.Arity() != 0
      ensures Valid()
      ensures this.constructedFrom == constructedFrom && typeArgumentsWithModifiers == typeArguments
      ensures this.unbound == unbound
    {
      var types, hasModifiers := SelectTypeArguments(typeArguments);
      this.constructedFrom := constructedFrom;
      typeArgumentsWithModifiers := typeArguments;
      this.typeArguments := types;
      hasTypeArgumentsCustomModifiers := hasModifiers;
      this.unbound := unbound;
    }

    /**
     * The modifiers of each type argument: read from the substitution when
     * some argument has any, otherwise the empty shape.
     */
    function TypeArgumentsCustomModifiers(): (r: seq<seq<nat>>)
      requires Valid()
      ensures |r| == |typeArguments|
      ensures !hasTypeArgumentsCustomModifiers ==> r == EmptyTypeArgumentsCustomModifiers(|typeArguments|)
      ensures hasTypeArgumentsCustomModifiers ==>
        forall i :: 0 <= i < |r| ==> r[i] == typeArgumentsWithModifiers[i].Modifiers()
    {
      if hasTypeArgumentsCustomModifiers then
        seq(|typeArgumentsWithModifiers|, i requires 0 <= i < |typeArgumentsWithModifiers| => typeArgumentsWithModifiers[i].Modifiers())
      else
        EmptyTypeArgumentsCustomModifiers(|typeArguments|)
    }
  }

  /** Either way, entry i holds the modifiers of type argument i. */
  lemma CustomModifiersArePerArgument(t: ConstructedNamedTypeSymbol)
    requires t.Valid()
    ensures forall i :: 0 <= i < |t.typeArguments| ==>
      t.TypeArgumentsCustomModifiers()[i] == t.typeArgumentsWithModifiers[i].Modifiers()
  {
    if !t.hasTypeArgumentsCustomModifiers {
      forall i | 0 <= i < |t.typeArguments|
        ensures t.TypeArgumentsCustomModifiers()[i] == t.typeArgumentsWithModifiers[i].Modifiers()
      {
        assert !t.typeArgumentsWithModifiers[i].HasCustomModifiers();
      }
    }
  }

  /** Whether the arguments are the type parameters themselves, position by position. */
  method TypeParametersMatchTypeArguments(typeParameters: seq<nat>, typeArguments: seq<TypeWithModifiers>) returns (r: bool)
    requires |typeArguments| == |typeParameters|
    requires |typeArguments| > 0
    ensures r <==> forall i :: 0 <= i < |typeParameters| ==> typeArguments[i].Is(typeParameters[i])
  {
    var n := |typeParameters|;
    for i := 0 to n
      invariant forall j :: 0 <= j < i ==> typeArguments[j].Is(typeParameters[j])
    {
      if !typeArguments[i].Is(typeParameters[i]) {
        return false;
      }
    }
    return true;
  }

  /** SubstitutedNestedTypeSymbol: a member type of a substituted container, with no type arguments of its own. */
  datatype SubstitutedNestedType = SubstitutedNestedType(containerIsUnbound: bool, originalDefinition: NamedType, unbound: bool)
  {
    function TypeArguments(): (r: seq<TypeSymbol>)
      ensures |r| == |originalDefinition.typeParameters|
      ensures forall i :: 0 <= i < |r| ==> r[i] == TypeParameterType(originalDefinition.typeParameters[i])
    {
      seq(|originalDefinition.typeParameters|, i requires 0 <= i < |originalDefinition.typeParameters| =>
        TypeParameterType(originalDefinition.typeParameters[i]))
    }

    function HasTypeArgumentsCustomModifiers(): (r: bool)
      ensures !r
    {
      false
    }
  }

  /** A non-generic member of an unbound generic type (`A<>.B`) is itself unbound. */
  function NewSubstitutedNestedType(containerIsUnbound: bool, originalDefinition: NamedType): (r: SubstitutedNestedType)
    ensures r.unbound <==> containerIsUnbound && originalDefinition.Arity() == 0
    ensures r.originalDefinition == originalDefinition
  {
    SubstitutedNestedType(containerIsUnbound, originalDefinition, containerIsUnbound && originalDefinition.Arity() == 0)
  }
}
