/**
 * Anonymous types. Every anonymous type expression gets a public symbol used
 * while binding; types with the same shape share one generic template that is
 * emitted. Both lay their members out in a fixed order: per field a property
 * (and, in the template, its backing field) and its getter, then a constructor
 * taking one parameter per property.
 */
module AnonymousTypes {
  import opened Wrappers
  import RK = RefKind

  /** A type as far as these symbols need one: a template type parameter or some other type. */
  datatype TypeRef = TypeParameterType(ordinal: nat) | OtherType(id: nat)

  /** A source location, ordered by syntax tree ordinal and then by position. */
  datatype Location = SourceLocation(treeOrdinal: nat, position: nat)

  predicate LocationLess(a: Location, b: Location)
  {
    a.treeOrdinal < b.treeOrdinal || (a.treeOrdinal == b.treeOrdinal && a.position < b.position)
  }

  datatype AnonymousTypeField = AnonymousTypeField(name: string, fieldType: TypeRef)

  datatype AnonymousTypeDescriptor = AnonymousTypeDescriptor(key: string, fields: seq<AnonymousTypeField>, location: Option<Location>)

  /**
   * The generated names of synthesized members. The name generators are
   * helpers of the compiler outside these files, so they are parameters.
   */
  datatype Naming = Naming(
    typeParameterName: string -> string,
    backingFieldName: string -> string,
    getterName: string -> string,
    constructorName: string)

  datatype SymbolKind = PropertySymbol | FieldSymbol | MethodSymbol

  datatype MethodKind = PropertyGet | Constructor

  datatype TypeParameter = TypeParameter(ordinal: nat, name: string)

  datatype Property = Property(fieldIndex: nat, name: string, propertyType: TypeRef)

  datatype SynthesizedParameter = SynthesizedParameter(parameterType: TypeRef, ordinal: nat, refKind: RK.RefKind, name: string)

  datatype Member =
    | PropertyMember(property: Property)
    | BackingFieldMember(property: Property, name: string)
    | GetterMember(property: Property, name: string)
    | ConstructorMember(name: string, parameters: seq<SynthesizedParameter>)
  {
    function Name(): string
    {
      if PropertyMember? then property.name else name
    }

    function Kind(): (r: SymbolKind)
      ensures r == FieldSymbol <==> BackingFieldMember?
    {
      match this
      case PropertyMember(_) => PropertySymbol
      case BackingFieldMember(_, _) => FieldSymbol
      case GetterMember(_, _) => MethodSymbol
      case ConstructorMember(_, _) => MethodSymbol
    }

    /** The constructor is a void-returning method of kind Constructor. */
    function MethodKindOf(): (r: MethodKind)
      requires Kind() == MethodSymbol
      ensures r == Constructor <==> ConstructorMember?
    {
      if ConstructorMember? then Constructor else PropertyGet
    }

    /** The constructor returns void; a getter returns its property's type. */
    function ReturnsVoid(): (r: bool)
      requires Kind() == MethodSymbol
      ensures r <==> MethodKindOf() == Constructor
    {
      ConstructorMember?
    }
  }

  /** The special members of a template, which are not part of its member list. */
  datatype SpecialMember = EqualsMethod | GetHashCodeMethod | ToStringMethod

  // ---------------------------------------------------------------------
  // Specification of the member layouts
  // ---------------------------------------------------------------------

  function TemplateProperty(fields: seq<AnonymousTypeField>, i: nat): Property
    requires i < |fields|
  {
    Property(i, fields[i].name, TypeParameterType(i))
  }

  function TemplateProperties(fields: seq<AnonymousTypeField>): (r: seq<Property>)
    ensures |r| == |fields|
  {
    seq(|fields|, i requires 0 <= i < |fields| => TemplateProperty(fields, i))
  }

  /** The members the first `n` fields contribute to a template, in order. */
  function TemplateFieldMembers(fields: seq<AnonymousTypeField>, naming: Naming, n: nat): seq<Member>
    requires n <= |fields|
  {
    if n == 0 then []
    else
      var p := TemplateProperty(fields, n - 1);
      TemplateFieldMembers(fields, naming, n - 1)
      + [PropertyMember(p), BackingFieldMember(p, naming.backingFieldName(p.name)), GetterMember(p, naming.getterName(p.name))]
  }

  /** The constructor's parameters: one per property, with its type, name and index. */
  function ConstructorParameters(properties: seq<Property>): (r: seq<SynthesizedParameter>)
    ensures |r| == |properties|
  {
    seq(|properties|, i requires 0 <= i < |properties| =>
      SynthesizedParameter(properties[i].propertyType, i, RK.None, properties[i].name))
  }

  function TemplateMembers(fields: seq<AnonymousTypeField>, naming: Naming): seq<Member>
  {
    TemplateFieldMembers(fields, naming, |fields|)
    + [ConstructorMember(naming.constructorName, ConstructorParameters(TemplateProperties(fields)))]
  }

  /** Field `i` of a template owns members 3i (property), 3i+1 (backing field) and 3i+2 (getter). */
  lemma {:induction false} TemplateFieldLayout(fields: seq<AnonymousTypeField>, naming: Naming, n: nat)
    requires n <= |fields|
    ensures |TemplateFieldMembers(fields, naming, n)| == 3 * n
    ensures forall i :: 0 <= i < n ==>
      var ms := TemplateFieldMembers(fields, naming, n);
      var p := TemplateProperty(fields, i);
      ms[3 * i] == PropertyMember(p)
      && ms[3 * i + 1] == BackingFieldMember(p, naming.backingFieldName(p.name))
      && ms[3 * i + 2] == GetterMember(p, naming.getterName(p.name))
  {
    if n > 0 {
      TemplateFieldLayout(fields, naming, n - 1);
    }
  }

  /** A template has 3n+1 members whose last is the constructor. */
  lemma TemplateLayout(fields: seq<AnonymousTypeField>, naming: Naming)
    ensures var ms := TemplateMembers(fields, naming);
            |ms| == 3 * |fields| + 1
            && ms[3 * |fields|].ConstructorMember?
            && forall i :: 0 <= i < 3 * |fields| ==>
                 !ms[i].ConstructorMember? && ms[i].property == TemplateProperty(fields, i / 3)
  {
    TemplateFieldLayout(fields, naming, |fields|);
    var ms := TemplateMembers(fields, naming);
    forall i | 0 <= i < 3 * |fields|
      ensures !ms[i].ConstructorMember? && ms[i].property == TemplateProperty(fields, i / 3)
    {
      var k := i / 3;
      assert 0 <= k < |fields|;
      var fms := TemplateFieldMembers(fields, naming, |fields|);
      assert ms[i] == fms[i];
      var p := TemplateProperty(fields, k);
      assert fms[3 * k] == PropertyMember(p)
        && fms[3 * k + 1] == BackingFieldMember(p, naming.backingFieldName(p.name))
        && fms[3 * k + 2] == GetterMember(p, naming.getterName(p.name));
      assert i == 3 * k || i == 3 * k + 1 || i == 3 * k + 2;
    }
  }

  function PublicProperty(fields: seq<AnonymousTypeField>, i: nat): Property
    requires i < |fields|
  {
    Property(i, fields[i].name, fields[i].fieldType)
  }

  function PublicProperties(fields: seq<AnonymousTypeField>): (r: seq<Property>)
    ensures |r| == |fields|
  {
    seq(|fields|, i requires 0 <= i < |fields| => PublicProperty(fields, i))
  }

  function PublicFieldMembers(fields: seq<AnonymousTypeField>, naming: Naming, n: nat): seq<Member>
    requires n <= |fields|
  {
    if n == 0 then []
    else
      var p := PublicProperty(fields, n - 1);
      PublicFieldMembers(fields, naming, n - 1) + [PropertyMember(p), GetterMember(p, naming.getterName(p.name))]
  }

  function PublicMembers(fields: seq<AnonymousTypeField>, naming: Naming): seq<Member>
  {
    PublicFieldMembers(fields, naming, |fields|)
    + [ConstructorMember(naming.constructorName, ConstructorParameters(PublicProperties(fields)))]
  }

  /** Field `i` of a public symbol owns members 2i (property) and 2i+1 (getter); nothing is a field. */
  lemma {:induction false} PublicFieldLayout(fields: seq<AnonymousTypeField>, naming: Naming, n: nat)
    requires n <= |fields|
    ensures |PublicFieldMembers(fields, naming, n)| == 2 * n
    ensures forall i :: 0 <= i < n ==>
      var ms := PublicFieldMembers(fields, naming, n);
      var p := PublicProperty(fields, i);
      ms[2 * i] == PropertyMember(p) && ms[2 * i + 1] == GetterMember(p, naming.getterName(p.name))
    ensures forall m :: m in PublicFieldMembers(fields, naming, n) ==> m.Kind() != FieldSymbol
  {
    if n > 0 {
      PublicFieldLayout(fields, naming, n - 1);
    }
  }

  /** The members of kind Field, in member order. */
  function FieldsOf(ms: seq<Member>): (r: seq<Member>)
    ensures forall m :: m in r ==> m in ms && m.Kind() == FieldSymbol
  {
    if |ms| == 0 then []
    else FieldsOf(ms[..|ms| - 1]) + (if ms[|ms| - 1].Kind() == FieldSymbol then [ms[|ms| - 1]] else [])
  }

  lemma {:induction false} FieldsOfAppend(a: seq<Member>, b: seq<Member>)
    ensures FieldsOf(a + b) == FieldsOf(a) + FieldsOf(b)
    decreases |b|
  {
    if |b| == 0 {
      assert a + b == a;
    } else {
      assert (a + b)[..|a + b| - 1] == a + b[..|b| - 1];
      FieldsOfAppend(a, b[..|b| - 1]);
    }
  }

  lemma FieldsOfTriple(p: Property, backing: string, getter: string)
    ensures FieldsOf([PropertyMember(p), BackingFieldMember(p, backing), GetterMember(p, getter)])
            == [BackingFieldMember(p, backing)]
  {
    var one := [PropertyMember(p)];
    var two := [PropertyMember(p), BackingFieldMember(p, backing)];
    var three := [PropertyMember(p), BackingFieldMember(p, backing), GetterMember(p, getter)];
    assert one[..0] == [];
    assert FieldsOf(one) == [];
    assert two[..1] == one;
    assert FieldsOf(two) == [BackingFieldMember(p, backing)];
    assert three[..2] == two;
  }

  /** The backing fields of the first `n` template properties, in order. */
  function TemplateBackingFields(fields: seq<AnonymousTypeField>, naming: Naming, n: nat): (r: seq<Member>)
    requires n <= |fields|
    ensures |r| == n
  {
    if n == 0 then []
    else
      var p := TemplateProperty(fields, n - 1);
      TemplateBackingFields(fields, naming, n - 1) + [BackingFieldMember(p, naming.backingFieldName(p.name))]
  }

  lemma {:induction false} TemplateBackingFieldsAt(fields: seq<AnonymousTypeField>, naming: Naming, n: nat)
    requires n <= |fields|
    ensures forall i :: 0 <= i < n ==>
      TemplateBackingFields(fields, naming, n)[i]
        == BackingFieldMember(TemplateProperty(fields, i), naming.backingFieldName(TemplateProperty(fields, i).name))
  {
    if n > 0 {
      TemplateBackingFieldsAt(fields, naming, n - 1);
    }
  }

  /** The fields a template emits are the backing fields of its properties, in field order. */
  lemma {:induction false} TemplateFieldsToEmit(fields: seq<AnonymousTypeField>, naming: Naming, n: nat)
    requires n <= |fields|
    ensures FieldsOf(TemplateFieldMembers(fields, naming, n)) == TemplateBackingFields(fields, naming, n)
  {
    if n > 0 {
      var p := TemplateProperty(fields, n - 1);
      var triple := [PropertyMember(p), BackingFieldMember(p, naming.backingFieldName(p.name)),
                     GetterMember(p, naming.getterName(p.name))];
      TemplateFieldsToEmit(fields, naming, n - 1);
      FieldsOfAppend(TemplateFieldMembers(fields, naming, n - 1), triple);
      FieldsOfTriple(p, naming.backingFieldName(p.name), naming.getterName(p.name));
    }
  }

  // ---------------------------------------------------------------------
  // Construction
  // ---------------------------------------------------------------------

  /** `_nameToSymbols[name]`: a MultiDictionary answers the empty set for an absent key. */
  function Lookup(m: map<string, set<Member>>, name: string): set<Member>
  {
    if name in m then m[name] else {}
  }

  /** Filling the name map: every member is added under its name. */
  method FillNameToSymbols(members: seq<Member>) returns (m: map<string, set<Member>>)
    ensures forall name :: Lookup(m, name) == set x | x in members && x.Name() == name
    ensures forall name :: name in m <==> exists x :: x in members && x.Name() == name
  {
    m := map[];
    for k := 0 to |members|
      invariant forall name :: Lookup(m, name) == set x | x in members[..k] && x.Name() == name
      invariant forall name :: name in m <==> exists x :: x in members[..k] && x.Name() == name
    {
      var symbol := members[k];
      assert members[..k + 1] == members[..k] + [symbol];
      ghost var m0 := m;
      m := m[symbol.Name() := Lookup(m, symbol.Name()) + {symbol}];
      forall name
        ensures Lookup(m, name) == set x | x in members[..k + 1] && x.Name() == name
      {
        assert forall x :: x in members[..k + 1] <==> x in members[..k] || x == symbol;
        assert Lookup(m0, name) == set x | x in members[..k] && x.Name() == name;
      }
    }
    assert members[..|members|] == members;
  }

  /** AnonymousTypeConstructorSymbol's parameters, filled one property at a time. */
  method MakeConstructorParameters(properties: seq<Property>) returns (parameters: seq<SynthesizedParameter>)
    ensures |parameters| == |properties|
    ensures forall i :: 0 <= i < |properties| ==>
      parameters[i] == SynthesizedParameter(properties[i].propertyType, i, RK.None, properties[i].name)
  {
    var n := |properties|;
    if n == 0 {
      return [];
    }
    var paramsArr := new SynthesizedParameter[n](_ => SynthesizedParameter(OtherType(0), 0, RK.None, ""));
    for index := 0 to n
      invariant forall i :: 0 <= i < index ==>
        paramsArr[i] == SynthesizedParameter(properties[i].propertyType, i, RK.None, properties[i].name)
    {
      var property := properties[index];
      paramsArr[index] := SynthesizedParameter(property.propertyType, index, RK.None, property.name);
    }
    parameters := paramsArr[..];
  }

  /** The template constructor's member array: the field loop, then the constructor last. */
  method BuildTemplateMembers(fields: seq<AnonymousTypeField>, naming: Naming)
    returns (typeParameters: seq<TypeParameter>, properties: seq<Property>, members: seq<Member>)
    ensures |typeParameters| == |fields|
    ensures forall i :: 0 <= i < |fields| ==>
      typeParameters[i] == TypeParameter(i, naming.typeParameterName(fields[i].name))
    ensures properties == TemplateProperties(fields)
    ensures members == TemplateMembers(fields, naming)
  {
    var arr := new Member[|fields| * 3 + 1](_ => ConstructorMember("", []));
    typeParameters, properties := ProcessTemplateFields(fields, naming, arr);
    var memberIndex := 3 * |fields|;
    var ctorParameters := MakeConstructorParameters(properties);
    assert ctorParameters == ConstructorParameters(properties);
    AppendMember(arr, memberIndex, ConstructorMember(naming.constructorName, ctorParameters));
    assert arr[..] == arr[..memberIndex + 1];
    members := arr[..];
  }

  /** The loop over the fields: a type parameter, a property and its three members per field. */
  method ProcessTemplateFields(fields: seq<AnonymousTypeField>, naming: Naming, arr: array<Member>)
    returns (typeParameters: seq<TypeParameter>, properties: seq<Property>)
    requires arr.Length == 3 * |fields| + 1
    modifies arr
    ensures |typeParameters| == |fields|
    ensures forall i :: 0 <= i < |fields| ==>
      typeParameters[i] == TypeParameter(i, naming.typeParameterName(fields[i].name))
    ensures properties == TemplateProperties(fields)
    ensures arr[..3 * |fields|] == TemplateFieldMembers(fields, naming, |fields|)
  {
    var memberIndex := 0;
    typeParameters, properties := [], [];
    for fieldIndex := 0 to |fields|
      invariant memberIndex == 3 * fieldIndex
      invariant arr[..memberIndex] == TemplateFieldMembers(fields, naming, fieldIndex)
      invariant |typeParameters| == fieldIndex && |properties| == fieldIndex
      invariant forall i :: 0 <= i < fieldIndex ==>
        typeParameters[i] == TypeParameter(i, naming.typeParameterName(fields[i].name))
      invariant forall i :: 0 <= i < fieldIndex ==> properties[i] == TemplateProperty(fields, i)
    {
      var field := fields[fieldIndex];
      var typeParameter := TypeParameter(fieldIndex, naming.typeParameterName(field.name));
      typeParameters := typeParameters + [typeParameter];
      var property := Property(fieldIndex, field.name, TypeParameterType(typeParameter.ordinal));
      assert property == TemplateProperty(fields, fieldIndex);
      properties := properties + [property];
      AppendPropertyMembers(arr, memberIndex, property, naming);
      memberIndex := memberIndex + 3;
    }
  }

  /** `members[memberIndex++] = m` on the builder buffer: the filled prefix grows by `m`. */
  method AppendMember(arr: array<Member>, memberIndex: nat, m: Member)
    requires memberIndex < arr.Length
    modifies arr
    ensures arr[..memberIndex + 1] == old(arr[..memberIndex]) + [m]
    ensures arr[memberIndex + 1..] == old(arr[memberIndex + 1..])
  {
    arr[memberIndex] := m;
  }

  /** The three `members[memberIndex++]` assignments of one field: property, backing field, getter. */
  method AppendPropertyMembers(arr: array<Member>, memberIndex: nat, property: Property, naming: Naming)
    requires memberIndex + 3 <= arr.Length
    modifies arr
    ensures arr[..memberIndex + 3] == old(arr[..memberIndex]) + [PropertyMember(property),
      BackingFieldMember(property, naming.backingFieldName(property.name)),
      GetterMember(property, naming.getterName(property.name))]
  {
    AppendMember(arr, memberIndex, PropertyMember(property));
    AppendMember(arr, memberIndex + 1, BackingFieldMember(property, naming.backingFieldName(property.name)));
    AppendMember(arr, memberIndex + 2, GetterMember(property, naming.getterName(property.name)));
  }

  /** The public symbol's member array: the field loop, then the constructor last. */
  method BuildPublicMembers(fields: seq<AnonymousTypeField>, naming: Naming)
    returns (properties: seq<Property>, members: seq<Member>)
    ensures properties == PublicProperties(fields)
    ensures members == PublicMembers(fields, naming)
  {
    var arr := new Member[|fields| * 2 + 1](_ => ConstructorMember("", []));
    properties := ProcessPublicFields(fields, naming, arr);
    var memberIndex := 2 * |fields|;
    var ctorParameters := MakeConstructorParameters(properties);
    assert ctorParameters == ConstructorParameters(properties);
    AppendMember(arr, memberIndex, ConstructorMember(naming.constructorName, ctorParameters));
    assert arr[..] == arr[..memberIndex + 1];
    members := arr[..];
  }

  /** The loop over the fields: a property and its getter per field. */
  method ProcessPublicFields(fields: seq<AnonymousTypeField>, naming: Naming, arr: array<Member>)
    returns (properties: seq<Property>)
    requires arr.Length == 2 * |fields| + 1
    modifies arr
    ensures properties == PublicProperties(fields)
    ensures arr[..2 * |fields|] == PublicFieldMembers(fields, naming, |fields|)
  {
    var memberIndex := 0;
    properties := [];
    for fieldIndex := 0 to |fields|
      invariant memberIndex == 2 * fieldIndex
      invariant arr[..memberIndex] == PublicFieldMembers(fields, naming, fieldIndex)
      invariant |properties| == fieldIndex
      invariant forall i :: 0 <= i < fieldIndex ==> properties[i] == PublicProperty(fields, i)
    {
      var field := fields[fieldIndex];
      var property := Property(fieldIndex, field.name, field.fieldType);
      properties := properties + [property];
      AppendMember(arr, memberIndex, PropertyMember(property));
      AppendMember(arr, memberIndex + 1, GetterMember(property, naming.getterName(property.name)));
      memberIndex := memberIndex + 2;
    }
  }

  /** The emitted type's name and its index among the emitted templates. */
  datatype NameAndIndex = NameAndIndex(name: string, index: int)

  class AnonymousTypeTemplateSymbol {
    ghost const fields: seq<AnonymousTypeField>
    ghost const naming: Naming
    const typeDescriptorKey: string
    const typeParameters: seq<TypeParameter>
    const properties: seq<Property>
    const members: seq<Member>
    const nameToSymbols: map<string, set<Member>>
    const specialMembers: seq<SpecialMember>
    var nameAndIndex: Option<NameAndIndex>
    var smallestLocation: Option<Location>

    ghost predicate Valid()
    {
      |typeParameters| == |fields|
      && properties == TemplateProperties(fields)
      && members == TemplateMembers(fields, naming)
      && (forall name :: Lookup(nameToSymbols, name) == set x | x in members && x.Name() == name)
      && specialMembers == [EqualsMethod, GetHashCodeMethod, ToStringMethod]
    }

    constructor (typeDescr: AnonymousTypeDescriptor, naming: Naming)
      ensures Valid()
      ensures fields == typeDescr.fields && this.naming == naming
      ensures typeDescriptorKey == typeDescr.key
      ensures smallestLocation == typeDescr.location && nameAndIndex.None?
    {
      var tps, props, ms := BuildTemplateMembers(typeDescr.fields, naming);
      var m := FillNameToSymbols(ms);
      fields := typeDescr.fields;
      this.naming := naming;
      typeDescriptorKey := typeDescr.key;
      smallestLocation := typeDescr.location;
      nameAndIndex := None;
      typeParameters, properties, members := tps, props, ms;
      nameToSymbols := m;
      specialMembers := [EqualsMethod, GetHashCodeMethod, ToStringMethod];
    }

    function GetMembers(): (r: seq<Member>)
      requires Valid()
      ensures |r| == 3 * |fields| + 1 && r[|r| - 1].ConstructorMember?
      ensures forall i :: 0 <= i < |r| - 1 ==> !r[i].ConstructorMember? && r[i].property == properties[i / 3]
    {
      TemplateLayout(fields, naming);
      members
    }

    /** GetMembers(name): exactly the members with that name, in no particular order. */
    function GetMembersNamed(name: string): (r: set<Member>)
      requires Valid()
      ensures r == set x | x in members && x.Name() == name
    {
      Lookup(nameToSymbols, name)
    }

    function Arity(): (r: nat)
      requires Valid()
      ensures r == |fields|
    {
      |typeParameters|
    }

    /** The emitted name carries an arity suffix exactly when the template has fields. */
    function MangleName(): (r: bool)
      requires Valid()
      ensures r <==> |fields| > 0
    {
      Arity() > 0
    }

    /** Name is only available once the emitted name has been assigned. */
    function Name(): string
      reads this
      requires nameAndIndex.Some?
    {
      nameAndIndex.value.name
    }

    /** The emitted fields: the members of kind Field, in member order. */
    method GetFieldsToEmit() returns (result: seq<Member>)
      requires Valid()
      ensures result == FieldsOf(members)
      ensures |result| == |fields|
      ensures forall i :: 0 <= i < |fields| ==> result[i].BackingFieldMember? && result[i].property == properties[i]
    {
      result := [];
      for k := 0 to |members|
        invariant result == FieldsOf(members[..k])
      {
        var m := members[k];
        assert members[..k + 1][..k] == members[..k];
        if m.Kind() == FieldSymbol {
          result := result + [m];
        }
      }
      assert members[..|members|] == members;
      var one := [ConstructorMember(naming.constructorName, ConstructorParameters(properties))];
      TemplateFieldsToEmit(fields, naming, |fields|);
      FieldsOfAppend(TemplateFieldMembers(fields, naming, |fields|), one);
      assert one[..0] == [];
      assert FieldsOf(one) == [];
      TemplateBackingFieldsAt(fields, naming, |fields|);
    }

    /** The name is set once; a later assignment must carry the same name and index. */
    method SetNameAndIndex(value: NameAndIndex)
      requires nameAndIndex.None? || nameAndIndex == Some(value)
      modifies this
      ensures nameAndIndex == Some(value) && Name() == value.name
      ensures smallestLocation == old(smallestLocation)
    {
      if nameAndIndex.None? {
        nameAndIndex := Some(value);
      }
    }

    /** Remembers the smallest location seen: it never moves to a later one. */
    method AdjustLocation(location: Location)
      modifies this
      ensures smallestLocation.Some?
      ensures old(smallestLocation).Some? && LocationLess(old(smallestLocation).value, location)
              ==> smallestLocation == old(smallestLocation)
      ensures !(old(smallestLocation).Some? && LocationLess(old(smallestLocation).value, location))
              ==> smallestLocation == Some(location)
      ensures old(smallestLocation).Some? ==> !LocationLess(old(SmallestLocation()), SmallestLocation())
      ensures !LocationLess(location, SmallestLocation())
      ensures nameAndIndex == old(nameAndIndex)
    {
      var currentSmallestLocation := smallestLocation;
      if currentSmallestLocation.Some? && LocationLess(currentSmallestLocation.value, location) {
        return;
      }
      smallestLocation := Some(location);
    }

    function SmallestLocation(): Location
      reads this
      requires smallestLocation.Some?
    {
      smallestLocation.value
    }
  }

  /** AnonymousTypePublicSymbol: the unnamed, non-generic type seen while binding. */
  class AnonymousTypePublicSymbol {
    ghost const naming: Naming
    const typeDescriptor: AnonymousTypeDescriptor
    const properties: seq<Property>
    const members: seq<Member>
    const nameToSymbols: map<string, set<Member>>

    ghost predicate Valid()
    {
      properties == PublicProperties(typeDescriptor.fields)
      && members == PublicMembers(typeDescriptor.fields, naming)
      && (forall name :: Lookup(nameToSymbols, name) == set x | x in members && x.Name() == name)
    }

    constructor (typeDescr: AnonymousTypeDescriptor, naming: Naming)
      ensures Valid()
      ensures typeDescriptor == typeDescr && this.naming == naming
    {
      var props, ms := BuildPublicMembers(typeDescr.fields, naming);
      var m := FillNameToSymbols(ms);
      typeDescriptor := typeDescr;
      this.naming := naming;
      properties, members, nameToSymbols := props, ms, m;
    }

    /** 2n+1 members, the properties typed by the descriptor's fields, and no fields at all. */
    function GetMembers(): (r: seq<Member>)
      requires Valid()
      ensures |r| == 2 * |typeDescriptor.fields| + 1 && r[|r| - 1].ConstructorMember?
      ensures forall i :: 0 <= i < |typeDescriptor.fields| ==>
        r[2 * i] == PropertyMember(properties[i]) && properties[i].propertyType == typeDescriptor.fields[i].fieldType
      ensures forall m :: m in r ==> m.Kind() != FieldSymbol
    {
      PublicFieldLayout(typeDescriptor.fields, naming, |typeDescriptor.fields|);
      members
    }

    function GetMembersNamed(name: string): (r: set<Member>)
      requires Valid()
      ensures r == set x | x in members && x.Name() == name
    {
      Lookup(nameToSymbols, name)
    }

    /** The public symbol is never emitted, so asking for its fields is unreachable. */
    function GetFieldsToEmit(): (r: Result<seq<Member>, string>)
      ensures r.Failure?
    {
      Failure("unreachable")
    }

    const Name: string := ""
    const MetadataName: string := ""
    const MangleName: bool := false
    const Arity: nat := 0
    const TypeParameters: seq<TypeParameter> := []

    /**
     * Equals: the same symbol, or another public anonymous type whose
     * descriptor is equal under `descriptorEquals`; null stands for any other
     * kind of type.
     */
    predicate Equals(t2: AnonymousTypePublicSymbol?, descriptorEquals: (AnonymousTypeDescriptor, AnonymousTypeDescriptor) -> bool)
    {
      this == t2 || (t2 != null && descriptorEquals(typeDescriptor, t2.typeDescriptor))
    }
  }

  /** Equals is reflexive whatever the descriptor comparison, and symmetric when that comparison is. */
  lemma PublicEqualsLaws(a: AnonymousTypePublicSymbol, b: AnonymousTypePublicSymbol,
                         descriptorEquals: (AnonymousTypeDescriptor, AnonymousTypeDescriptor) -> bool)
    requires forall x, y :: descriptorEquals(x, y) == descriptorEquals(y, x)
    ensures a.Equals(a, descriptorEquals)
    ensures a.Equals(b, descriptorEquals) == b.Equals(a, descriptorEquals)
  {
  }

  // ---------------------------------------------------------------------
  // Debugger display
  // ---------------------------------------------------------------------

  const MaxDisplayedProperties: nat := 10

  /** One `name = {name}` entry, preceded by a comma after the first. */
  function DisplayEntry(name: string, index: nat): string
  {
    (if index > 0 then ", " else "") + name + " = {" + name + "}"
  }

  function DisplayEntries(names: seq<string>, count: nat): string
    requires count <= |names|
  {
    if count == 0 then "" else DisplayEntries(names, count - 1) + DisplayEntry(names[count - 1], count - 1)
  }

  function Min(a: nat, b: nat): nat
  {
    if a < b then a else b
  }

  /** The debugger display string of a template with the given property names. */
  function DebuggerDisplay(names: seq<string>): string
  {
    if |names| == 0 then "\\{ }"
    else
      var displayCount := Min(|names|, MaxDisplayedProperties);
      "\\{ " + DisplayEntries(names, displayCount) + (if |names| > displayCount then " ..." else "") + " }"
  }

  function PropertyNames(properties: seq<Property>): (r: seq<string>)
    ensures |r| == |properties|
    ensures forall i :: 0 <= i < |properties| ==> r[i] == properties[i].name
  {
    seq(|properties|, i requires 0 <= i < |properties| => properties[i].name)
  }

  /** The display string is built by appending to a string builder. */
  method TrySynthesizeDebuggerDisplay(properties: seq<Property>) returns (displayString: string)
    ensures displayString == DebuggerDisplay(PropertyNames(properties))
  {
    ghost var names := PropertyNames(properties);
    if |properties| == 0 {
      displayString := "\\{ }";
    } else {
      var sb := "\\{ ";
      var displayCount := Min(|properties|, 10);
      for fieldIndex := 0 to displayCount
        invariant sb == "\\{ " + DisplayEntries(names, fieldIndex)
      {
        var fieldName := properties[fieldIndex].name;
        ghost var before := sb;
        if fieldIndex > 0 {
          sb := sb + ", ";
        }
        sb := sb + fieldName;
        sb := sb + " = {";
        sb := sb + fieldName;
        sb := sb + "}";
        assert sb == before + DisplayEntry(names[fieldIndex], fieldIndex);
      }
      if |properties| > displayCount {
        sb := sb + " ...";
      }
      sb := sb + " }";
      displayString := sb;
    }
  }

  lemma {:induction false} DisplayEntriesPrefix(names1: seq<string>, names2: seq<string>, count: nat)
    requires count <= |names1| && count <= |names2| && names1[..count] == names2[..count]
    ensures DisplayEntries(names1, count) == DisplayEntries(names2, count)
  {
    if count > 0 {
      assert names1[count - 1] == names1[..count][count - 1];
      assert names2[count - 1] == names2[..count][count - 1];
      DisplayEntriesPrefix(names1, names2, count - 1);
    }
  }

  /**
   * Only the first ten properties are shown: two templates with more than ten
   * properties that agree on the first ten display the same, and the display
   * then ends with an ellipsis.
   */
  lemma DisplayShowsAtMostTen(names1: seq<string>, names2: seq<string>)
    requires |names1| > 10 && |names2| > 10 && names1[..10] == names2[..10]
    ensures DebuggerDisplay(names1) == DebuggerDisplay(names2)
    ensures var d := DebuggerDisplay(names1); |d| >= 6 && d[|d| - 6..] == " ... }"
  {
    DisplayEntriesPrefix(names1, names2, 10);
  }
}
