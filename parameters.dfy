/**
 * Two parameter symbols that are not written in source as such: the implicit
 * `this` parameter of an instance method, and a source parameter cloned onto
 * another owner (an accessor of an indexer, BeginInvoke/EndInvoke of a delegate).
 */
module Parameters {
  import opened Wrappers
  import RK = RefKind

  datatype TypeKind = ClassKind | StructKind | InterfaceKind | EnumKind | DelegateKind | OtherTypeKind

  datatype TypeSymbol = TypeSymbol(identity: nat, typeKind: TypeKind)

  datatype MethodKind = Constructor | Ordinary | PropertyGet | PropertySet | OtherMethodKind

  datatype Location = Location(treeOrdinal: nat, position: nat)

  datatype MethodSymbol = MethodSymbol(identity: nat, methodKind: MethodKind, containingType: Option<TypeSymbol>, locations: seq<Location>)

  /** The symbol a parameter belongs to. */
  datatype Symbol = MethodOwner(methodSymbol: MethodSymbol) | TypeOwner(typeSymbol: TypeSymbol) | NoOwner

  // ---------------------------------------------------------------------
  // ThisParameterSymbol
  // ---------------------------------------------------------------------

  const ThisName: string := "this"

  datatype ThisParameter = ThisParameter(containingMethod: Option<MethodSymbol>, containingType: Option<TypeSymbol>)
  {
    /** `this` of a struct is passed by reference; a struct constructor assigns it, so there it is `out`. */
    function RefKind(): (r: RK.RefKind)
      ensures r == RK.None <==> containingType.None? || containingType.value.typeKind != StructKind
      ensures r == RK.Out <==> containingType.Some? && containingType.value.typeKind == StructKind
                               && containingMethod.Some? && containingMethod.value.methodKind == Constructor
      ensures r == RK.None || r == RK.Ref || r == RK.Out
    {
      if containingType.None? || containingType.value.typeKind != StructKind then RK.None
      else if containingMethod.Some? && containingMethod.value.methodKind == Constructor then RK.Out
      else RK.Ref
    }

    function Type(): Option<TypeSymbol>
    {
      containingType
    }

    /** The method when there is one, else the type. */
    function ContainingSymbol(): (r: Symbol)
      ensures containingMethod.Some? ==> r == MethodOwner(containingMethod.value)
      ensures containingMethod.None? && containingType.Some? ==> r == TypeOwner(containingType.value)
      ensures r == NoOwner <==> containingMethod.None? && containingType.None?
    {
      if containingMethod.Some? then MethodOwner(containingMethod.value)
      else if containingType.Some? then TypeOwner(containingType.value)
      else NoOwner
    }

    /** `this` is where its containing symbol is when that is a method, and nowhere otherwise. */
    function Locations(): (r: seq<Location>)
      ensures ContainingSymbol().MethodOwner? ==> r == ContainingSymbol().methodSymbol.locations
      ensures !ContainingSymbol().MethodOwner? ==> r == []
    {
      if containingMethod.Some? then containingMethod.value.locations else []
    }

    function Name(): string
    {
      ThisName
    }

    /** `this` precedes the declared parameters, which are numbered from zero. */
    function Ordinal(): (r: int)
      ensures r < 0
    {
      -1
    }
  }

  /** `new ThisParameterSymbol(forMethod)`: the type is the method's containing type. */
  function ThisParameterFor(forMethod: MethodSymbol): (r: ThisParameter)
    ensures r.containingMethod == Some(forMethod) && r.containingType == forMethod.containingType
  {
    ThisParameter(Some(forMethod), forMethod.containingType)
  }

  /** Only value types pass `this` by reference, and only their constructors as `out`. */
  lemma ThisOfConstructor(forMethod: MethodSymbol, t: TypeSymbol)
    requires forMethod.containingType == Some(t) && forMethod.methodKind == Constructor
    ensures ThisParameterFor(forMethod).RefKind() == (if t.typeKind == StructKind then RK.Out else RK.None)
    ensures ThisParameterFor(forMethod).ContainingSymbol() == MethodOwner(forMethod)
    ensures ThisParameterFor(forMethod).Type() == Some(t) && ThisParameterFor(forMethod).Locations() == forMethod.locations
  {
  }

  // ---------------------------------------------------------------------
  // SourceClonedParameterSymbol
  // ---------------------------------------------------------------------

  datatype ConstantValue = ConstantValue(identity: nat)

  /** The original source parameter, as far as a clone reads it. */
  datatype SourceParameter = SourceParameter(
    name: string,
    parameterType: nat,
    refKind: RK.RefKind,
    customModifiers: seq<nat>,
    countOfCustomModifiersPrecedingByRef: nat,
    isParams: bool,
    isMetadataOptional: bool,
    hasOptionalAttribute: bool,
    explicitDefaultConstantValue: Option<ConstantValue>,
    defaultValueFromAttributes: Option<ConstantValue>,
    locations: seq<Location>)

  /** WithCustomModifiersAndParamsCore of the original: the same parameter with a new type, modifiers and params flag. */
  function WithCustomModifiersAndParamsCore(p: SourceParameter, newType: nat, newCustomModifiers: seq<nat>,
                                            countOfCustomModifiersPrecedingByRef: nat, newIsParams: bool): (r: SourceParameter)
    ensures r.parameterType == newType && r.customModifiers == newCustomModifiers && r.isParams == newIsParams
    ensures r.countOfCustomModifiersPrecedingByRef == countOfCustomModifiersPrecedingByRef
    ensures r.name == p.name && r.refKind == p.refKind && r.locations == p.locations
    ensures r.defaultValueFromAttributes == p.defaultValueFromAttributes
  {
    p.(parameterType := newType, customModifiers := newCustomModifiers,
       countOfCustomModifiersPrecedingByRef := countOfCustomModifiersPrecedingByRef, isParams := newIsParams)
  }

  /**
   * A clone shares the original's attributes and default value. With
   * `suppressOptional` it drops what the declaration syntax gave (`params`, `= value`)
   * and keeps only what attributes give.
   */
  datatype SourceClonedParameter = SourceClonedParameter(original: SourceParameter, owner: Symbol, ordinal: nat, suppressOptional: bool)
  {
    function IsParams(): (r: bool)
      ensures r <==> !suppressOptional && original.isParams
    {
      !suppressOptional && original.isParams
    }

    /** Pseudo-custom attributes are not suppressed. */
    function IsMetadataOptional(): (r: bool)
      ensures suppressOptional ==> r == original.hasOptionalAttribute
      ensures !suppressOptional ==> r == original.isMetadataOptional
    {
      if suppressOptional then original.hasOptionalAttribute else original.isMetadataOptional
    }

    function ExplicitDefaultConstantValue(): (r: Option<ConstantValue>)
      ensures suppressOptional ==> r == original.defaultValueFromAttributes
      ensures !suppressOptional ==> r == original.explicitDefaultConstantValue
    {
      if suppressOptional then original.defaultValueFromAttributes else original.explicitDefaultConstantValue
    }

    function DefaultValueFromAttributes(): (r: Option<ConstantValue>)
      ensures r == original.defaultValueFromAttributes
    {
      original.defaultValueFromAttributes
    }

    function Name(): (r: string)
      ensures r == original.name
    {
      original.name
    }

    /** The clone keeps its owner, position and suppression, and re-clones the adjusted original. */
    function WithCustomModifiersAndParams(newType: nat, newCustomModifiers: seq<nat>,
                                          countOfCustomModifiersPrecedingByRef: nat, newIsParams: bool): (r: SourceClonedParameter)
      ensures r.owner == owner && r.ordinal == ordinal && r.suppressOptional == suppressOptional
      ensures r.original.parameterType == newType && r.original.customModifiers == newCustomModifiers
      ensures r.Name() == Name() && r.DefaultValueFromAttributes() == DefaultValueFromAttributes()
      ensures r.IsParams() <==> !suppressOptional && newIsParams
    {
      SourceClonedParameter(
        WithCustomModifiersAndParamsCore(original, newType, newCustomModifiers, countOfCustomModifiersPrecedingByRef, newIsParams),
        owner, ordinal, suppressOptional)
    }
  }

  /** A clone is implicitly declared and has no declaring syntax. */
  const ClonedIsImplicitlyDeclared: bool := true
  const ClonedDeclaringSyntaxReferences: seq<nat> := []

  /** A suppressed clone's optional information comes from attributes alone; an unsuppressed one mirrors the original. */
  lemma {:induction false} SuppressionKeepsOnlyAttributes(c: SourceClonedParameter)
    ensures c.suppressOptional ==>
      !c.IsParams() && c.ExplicitDefaultConstantValue() == c.DefaultValueFromAttributes()
      && c.IsMetadataOptional() == c.original.hasOptionalAttribute
    ensures !c.suppressOptional ==>
      c.IsParams() == c.original.isParams
      && c.ExplicitDefaultConstantValue() == c.original.explicitDefaultConstantValue
      && c.IsMetadataOptional() == c.original.isMetadataOptional
  {
  }
}
