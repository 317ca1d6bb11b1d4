/**
 * SynthesizedContainer: the class synthesized for a lambda display, iterator,
 * async method or dynamic call sites. Its type parameters are either
 * generated (T1..Tn and possibly TResult) or supplied by the caller; its only
 * possible member is the constructor a derived container provides.
 */
module SynthesizedContainer {
  import opened Wrappers
  import opened Strings
  import AT = AnonymousTypes

  /** The members a container can hold: its constructor is a method. */
  datatype ContainerMember = MethodMember(name: string) | FieldMember(name: string)

  /** The generated type parameter names T1, T2, ... */
  function GeneratedName(i: nat): string
  {
    "T" + NatToString(i + 1)
  }

  /** The generated type parameters: one per parameter, then TResult when the delegate returns a value. */
  method CreateTypeParameters(parameterCount: nat, returnsVoid: bool) returns (typeParameters: seq<AT.TypeParameter>)
    ensures |typeParameters| == parameterCount + (if returnsVoid then 0 else 1)
    ensures forall i :: 0 <= i < parameterCount ==> typeParameters[i] == AT.TypeParameter(i, GeneratedName(i))
    ensures !returnsVoid ==> typeParameters[parameterCount] == AT.TypeParameter(parameterCount, "TResult")
    ensures forall i :: 0 <= i < |typeParameters| ==> typeParameters[i].ordinal == i
  {
    typeParameters := [];
    for i := 0 to parameterCount
      invariant |typeParameters| == i
      invariant forall j :: 0 <= j < i ==> typeParameters[j] == AT.TypeParameter(j, GeneratedName(j))
    {
      typeParameters := typeParameters + [AT.TypeParameter(i, "T" + NatToString(i + 1))];
    }
    if !returnsVoid {
      typeParameters := typeParameters + [AT.TypeParameter(parameterCount, "TResult")];
    }
  }

  /** The generated type parameters have pairwise distinct names. */
  lemma GeneratedNamesDistinct(parameterCount: nat, returnsVoid: bool, typeParameters: seq<AT.TypeParameter>)
    requires |typeParameters| == parameterCount + (if returnsVoid then 0 else 1)
    requires forall i :: 0 <= i < parameterCount ==> typeParameters[i] == AT.TypeParameter(i, GeneratedName(i))
    requires !returnsVoid ==> typeParameters[parameterCount] == AT.TypeParameter(parameterCount, "TResult")
    ensures forall i, j :: 0 <= i < j < |typeParameters| ==> typeParameters[i].name != typeParameters[j].name
  {
    forall i, j | 0 <= i < j < |typeParameters|
      ensures typeParameters[i].name != typeParameters[j].name
    {
      if j < parameterCount {
        if GeneratedName(i) == GeneratedName(j) {
          assert NatToString(i + 1) == GeneratedName(i)[1..];
          assert NatToString(j + 1) == GeneratedName(j)[1..];
          NatToStringInjective(i + 1, j + 1);
        }
      } else {
        var s := NatToString(i + 1);
        assert GeneratedName(i)[1] == s[0];
        assert IsDigit(s[0]);
        assert "TResult"[1] == 'R';
      }
    }
  }

  /** The field members of a member list, in member order. */
  function FieldsIn(members: seq<ContainerMember>): seq<ContainerMember>
  {
    if members == [] then []
    else FieldsIn(members[..|members| - 1]) + (if members[|members| - 1].FieldMember? then [members[|members| - 1]] else [])
  }

  /** Filtering one more member appends it exactly when it is a field. */
  lemma FieldsInSnoc(members: seq<ContainerMember>, m: ContainerMember)
    ensures FieldsIn(members + [m]) == FieldsIn(members) + (if m.FieldMember? then [m] else [])
  {
    assert (members + [m])[..|members|] == members;
  }

  class SynthesizedContainer {
    const name: string
    const typeParameters: seq<AT.TypeParameter>
    /** The constructor a derived container supplies; the base class has none. */
    const constructor_: Option<ContainerMember>

    ghost predicate Valid()
    {
      constructor_.Some? ==> constructor_.value.MethodMember?
    }

    /** The container of a lambda or dynamic site with generated type parameters. */
    constructor (name: string, parameterCount: nat, returnsVoid: bool, ctor: Option<string>)
      ensures Valid()
      ensures this.name == name
      ensures |typeParameters| == parameterCount + (if returnsVoid then 0 else 1)
      ensures forall i :: 0 <= i < parameterCount ==> typeParameters[i] == AT.TypeParameter(i, GeneratedName(i))
      ensures !returnsVoid ==> typeParameters[parameterCount] == AT.TypeParameter(parameterCount, "TResult")
      ensures ctor.Some? <==> constructor_.Some?
      ensures ctor.Some? ==> constructor_ == Some(MethodMember(ctor.value))
      ensures Arity() == parameterCount + (if returnsVoid then 0 else 1)
      ensures MangleName() <==> parameterCount > 0 || !returnsVoid
      ensures IsAbstract() <==> ctor.None?
    {
      this.name := name;
      var tps := CreateTypeParameters(parameterCount, returnsVoid);
      typeParameters := tps;
      constructor_ := if ctor.Some? then Some(MethodMember(ctor.value)) else None;
    }

    /** The container of an iterator or async state machine, whose type parameters are given. */
    constructor WithTypeParameters(name: string, typeParameters: seq<AT.TypeParameter>, ctor: Option<string>)
      ensures Valid()
      ensures this.name == name && this.typeParameters == typeParameters
      ensures ctor.Some? <==> constructor_.Some?
      ensures ctor.Some? ==> constructor_ == Some(MethodMember(ctor.value))
      ensures Arity() == |typeParameters| && (MangleName() <==> typeParameters != [])
      ensures IsAbstract() <==> ctor.None?
    {
      this.name := name;
      this.typeParameters := typeParameters;
      constructor_ := if ctor.Some? then Some(MethodMember(ctor.value)) else None;
    }

    function Arity(): nat
    {
      |typeParameters|
    }

    /** The emitted name carries an arity suffix exactly when there are type parameters. */
    function MangleName(): bool
    {
      Arity() > 0
    }

    /** A container without a constructor is abstract. */
    function IsAbstract(): bool
    {
      constructor_.None?
    }

    function GetMembers(): (r: seq<ContainerMember>)
      ensures constructor_.Some? ==> r == [constructor_.value]
      ensures constructor_.None? ==> r == []
      ensures r == [] <==> IsAbstract()
    {
      if constructor_.None? then [] else [constructor_.value]
    }

    function GetMembersNamed(name: string): (r: seq<ContainerMember>)
      ensures r != [] <==> constructor_.Some? && constructor_.value.name == name
      ensures r != [] ==> r == [constructor_.value]
    {
      if constructor_.Some? && name == constructor_.value.name then [constructor_.value] else []
    }

    /** The field members, in member order; a container's only member is a method, so there are none. */
    method GetFieldsToEmit() returns (fields: seq<ContainerMember>)
      requires Valid()
      ensures fields == FieldsIn(GetMembers())
      ensures fields == []
    {
      var members := GetMembers();
      fields := [];
      for k := 0 to |members|
        invariant fields == FieldsIn(members[..k])
      {
        var m := members[k];
        FieldsInSnoc(members[..k], m);
        assert members[..k + 1] == members[..k] + [m];
        if m.FieldMember? {
          fields := fields + [m];
        }
      }
      assert members[..|members|] == members;
    }
  }
}
