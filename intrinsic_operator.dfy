/**
 * SynthesizedIntrinsicOperatorSymbol: the method symbol the compiler makes up
 * for a built-in operator (integer addition, string concatenation, ...), and
 * its operator parameters.
 */
module IntrinsicOperator {
  import RK = RefKind

  /** A type: its identity and its custom modifiers. */
  datatype TypeSymbol = TypeSymbol(identity: nat, customModifiers: seq<nat>)

  /** Type equality ignoring custom modifiers (and array sizes and lower bounds, folded into identity). */
  predicate EqualsIgnoringCustomModifiers(a: TypeSymbol, b: TypeSymbol)
  {
    a.identity == b.identity
  }

  datatype MethodKind = BuiltinOperator

  /** The containing type of a binary operator: the left operand type unless the right one matches the result better. */
  function ChooseContainingType(leftType: TypeSymbol, rightType: TypeSymbol, returnType: TypeSymbol): (r: TypeSymbol)
    ensures r == leftType || r == rightType
    ensures r == rightType && rightType != leftType ==>
      !EqualsIgnoringCustomModifiers(leftType, rightType) && EqualsIgnoringCustomModifiers(rightType, returnType)
  {
    if EqualsIgnoringCustomModifiers(leftType, rightType) then leftType
    else if EqualsIgnoringCustomModifiers(rightType, returnType) then rightType
    else leftType
  }

  /** The binary constructor expects one operand type to match the other or the result. */
  ghost predicate OperandTypesFit(leftType: TypeSymbol, rightType: TypeSymbol, returnType: TypeSymbol)
  {
    EqualsIgnoringCustomModifiers(leftType, rightType)
    || EqualsIgnoringCustomModifiers(rightType, returnType)
    || EqualsIgnoringCustomModifiers(leftType, returnType)
  }

  /** When the operand types differ, the containing type is the operand type that matches the result. */
  lemma ContainerMatchesResult(leftType: TypeSymbol, rightType: TypeSymbol, returnType: TypeSymbol)
    requires OperandTypesFit(leftType, rightType, returnType)
    requires !EqualsIgnoringCustomModifiers(leftType, rightType)
    ensures EqualsIgnoringCustomModifiers(ChooseContainingType(leftType, rightType, returnType), returnType)
  {
  }

  /** SynthesizedOperatorParameterSymbol: a by-value parameter without custom modifiers. */
  class OperatorParameter {
    const container: SynthesizedIntrinsicOperatorSymbol
    const parameterType: TypeSymbol
    const ordinal: nat
    const name: string
    const refKind: RK.RefKind

    constructor (container: SynthesizedIntrinsicOperatorSymbol, parameterType: TypeSymbol, ordinal: nat, name: string)
      ensures this.container == container && this.parameterType == parameterType
      ensures this.ordinal == ordinal && this.name == name && refKind == RK.None
    {
      this.container := container;
      this.parameterType := parameterType;
      this.ordinal := ordinal;
      this.name := name;
      refKind := RK.None;
    }

    /**
     * The same parameter, or one at the same position of an equal operator:
     * containers are compared with the symbol `==`, which is the operators'
     * structural Equals. Null stands for any other symbol.
     */
    predicate Equals(other: OperatorParameter?): (r: bool)
      reads container, if other != null then {other.container} else {}
      ensures r ==> other != null && ordinal == other.ordinal
      ensures other != null && ordinal == other.ordinal && SameOperator(container, other.container) ==> r
    {
      other == this || (other != null && ordinal == other.ordinal
                        && (container == other.container || SameOperator(container, other.container)))
    }
  }

  /** Parameter equality is an equivalence relation on non-null parameters. */
  lemma ParameterEqualsLaws(a: OperatorParameter, b: OperatorParameter, c: OperatorParameter)
    ensures a.Equals(a)
    ensures a.Equals(b) <==> b.Equals(a)
    ensures a.Equals(b) && b.Equals(c) ==> a.Equals(c)
    ensures !a.Equals(null)
  {
    SameOperatorLaws(a.container, b.container, c.container);
    SameOperatorLaws(b.container, a.container, c.container);
  }

  class SynthesizedIntrinsicOperatorSymbol {
    const containingType: TypeSymbol
    const name: string
    const returnType: TypeSymbol
    const isCheckedBuiltin: bool
    var parameters: seq<OperatorParameter>

    /** The binary form: parameters "left" and "right". */
    constructor Binary(leftType: TypeSymbol, name: string, rightType: TypeSymbol, returnType: TypeSymbol, isCheckedBuiltin: bool)
      requires OperandTypesFit(leftType, rightType, returnType)
      ensures containingType == ChooseContainingType(leftType, rightType, returnType)
      ensures this.name == name && this.returnType == returnType && this.isCheckedBuiltin == isCheckedBuiltin
      ensures |parameters| == 2
      ensures parameters[0].container == this && parameters[0].parameterType == leftType
      ensures parameters[0].ordinal == 0 && parameters[0].name == "left"
      ensures parameters[1].container == this && parameters[1].parameterType == rightType
      ensures parameters[1].ordinal == 1 && parameters[1].name == "right"
    {
      containingType := ChooseContainingType(leftType, rightType, returnType);
      this.name := name;
      this.returnType := returnType;
      this.isCheckedBuiltin := isCheckedBuiltin;
      parameters := [];
      new;
      var left := new OperatorParameter(this, leftType, 0, "left");
      var right := new OperatorParameter(this, rightType, 1, "right");
      parameters := [left, right];
    }

    /** The unary form: one parameter "value" of the container type. */
    constructor Unary(container: TypeSymbol, name: string, returnType: TypeSymbol, isCheckedBuiltin: bool)
      ensures containingType == container
      ensures this.name == name && this.returnType == returnType && this.isCheckedBuiltin == isCheckedBuiltin
      ensures |parameters| == 1
      ensures parameters[0].container == this && parameters[0].parameterType == container
      ensures parameters[0].ordinal == 0 && parameters[0].name == "value"
    {
      containingType := container;
      this.name := name;
      this.returnType := returnType;
      this.isCheckedBuiltin := isCheckedBuiltin;
      parameters := [];
      new;
      var value := new OperatorParameter(this, container, 0, "value");
      parameters := [value];
    }

    const MethodKind: MethodKind := BuiltinOperator
    const Arity: nat := 0
    const IsStatic: bool := true

    /** Equals: the same operator, or a synthesized operator that matches in every respect but identity. */
    method Equals(other: SynthesizedIntrinsicOperatorSymbol?) returns (result: bool)
      ensures result <==> other == this || (other != null && SameOperator(this, other))
    {
      if other == this {
        return true;
      }
      if other == null {
        return false;
      }
      if isCheckedBuiltin == other.isCheckedBuiltin
         && |parameters| == |other.parameters|
         && name == other.name
         && containingType == other.containingType
         && returnType == other.returnType
      {
        for i := 0 to |parameters|
          invariant forall j :: 0 <= j < i ==> parameters[j].parameterType == other.parameters[j].parameterType
        {
          if parameters[i].parameterType != other.parameters[i].parameterType {
            return false;
          }
        }
        return true;
      }
      return false;
    }
  }

  /** Two operators agree on checkedness, name, containing type, return type and parameter types. */
  predicate SameOperator(a: SynthesizedIntrinsicOperatorSymbol, b: SynthesizedIntrinsicOperatorSymbol)
    reads a, b
  {
    a.isCheckedBuiltin == b.isCheckedBuiltin
    && |a.parameters| == |b.parameters|
    && a.name == b.name
    && a.containingType == b.containingType
    && a.returnType == b.returnType
    && forall i :: 0 <= i < |a.parameters| ==> a.parameters[i].parameterType == b.parameters[i].parameterType
  }

  /** Operator equality is reflexive, symmetric and transitive. */
  lemma SameOperatorLaws(a: SynthesizedIntrinsicOperatorSymbol, b: SynthesizedIntrinsicOperatorSymbol, c: SynthesizedIntrinsicOperatorSymbol)
    ensures SameOperator(a, a)
    ensures SameOperator(a, b) <==> SameOperator(b, a)
    ensures SameOperator(a, b) && SameOperator(b, c) ==> SameOperator(a, c)
  {
  }
}
