/**
 * ReducedExtensionMethodSymbol: an extension method seen as an instance
 * method of its receiver, with the leading `this` parameter removed. Only the
 * public binding API creates these.
 */
module ReducedExtensionMethod {
  import opened Wrappers

  /** A parameter of the underlying extension method. */
  datatype Parameter = Parameter(ordinal: int, name: string, parameterType: nat)

  /** The underlying method, as far as reduction looks at it; `id` stands for its identity. */
  datatype MethodSymbol = MethodSymbol(id: nat, parameters: seq<Parameter>)

  /** A method's parameters carry their positions as ordinals. */
  ghost predicate OrdinalsArePositions(m: MethodSymbol)
  {
    forall k :: 0 <= k < |m.parameters| ==> m.parameters[k].ordinal == k
  }

  datatype Severity = Hidden | Info | Warning | Error

  datatype UseSiteDiagnostic = UseSiteDiagnostic(code: nat, severity: Severity)

  /** The foreach over the use-site diagnostics, returning at the first error. */
  method HasErrorDiagnostic(useSiteDiagnostics: Option<seq<UseSiteDiagnostic>>) returns (found: bool)
    ensures found <==> useSiteDiagnostics.Some?
                       && exists d :: d in useSiteDiagnostics.value && d.severity == Error
  {
    if useSiteDiagnostics.None? {
      return false;
    }
    var diags := useSiteDiagnostics.value;
    for k := 0 to |diags|
      invariant forall j :: 0 <= j < k ==> diags[j].severity != Error
    {
      if diags[k].severity == Error {
        return true;
      }
    }
    return false;
  }

  /**
   * Create(method, receiverType, compilation). Type inference and the
   * conversion of the receiver to the `this` parameter live elsewhere in the
   * compiler, so their outcomes are inputs: `inferred` is the method with its
   * type arguments inferred (None when inference fails), `conversionExists`
   * says whether the receiver converts, and `useSiteDiagnostics` are the
   * diagnostics collected on the way (None when none were recorded).
   */
  method Create(inferred: Option<MethodSymbol>, conversionExists: bool,
                useSiteDiagnostics: Option<seq<UseSiteDiagnostic>>)
    returns (r: ReducedExtensionMethodSymbol?)
    requires inferred.Some? ==> |inferred.value.parameters| > 0
    ensures r != null <==>
      inferred.Some? && conversionExists
      && !(useSiteDiagnostics.Some? && exists d :: d in useSiteDiagnostics.value && d.severity == Error)
    ensures r != null ==> fresh(r) && r.reducedFrom == inferred.value && r.lazyParameters.None?
  {
    if inferred.None? {
      return null;
    }
    if !conversionExists {
      return null;
    }
    var hasError := HasErrorDiagnostic(useSiteDiagnostics);
    if hasError {
      return null;
    }
    r := new ReducedExtensionMethodSymbol(inferred.value);
  }

  /** A parameter of the reduced method: a wrapper around underlying parameter `underlying`. */
  datatype ReducedParameter = ReducedParameter(containingMethod: ReducedExtensionMethodSymbol, underlying: Parameter)
  {
    /** The `this` parameter is gone, so every other parameter moves one position to the front. */
    function Ordinal(): (r: int)
      requires underlying.ordinal > 0
      ensures r >= 0 && r + 1 == underlying.ordinal
    {
      underlying.ordinal - 1
    }
  }

  /** Thrown by GetTypeInferredDuringReduction. */
  datatype ArgumentError = ArgumentNull | ArgumentInvalid

  /** A type parameter, known by the method that declares it. */
  datatype TypeParameter = TypeParameter(ordinal: nat, containingMethod: MethodSymbol)

  class ReducedExtensionMethodSymbol {
    const reducedFrom: MethodSymbol
    var lazyParameters: Option<seq<ReducedParameter>>

    constructor (reducedFrom: MethodSymbol)
      requires |reducedFrom.parameters| > 0
      ensures this.reducedFrom == reducedFrom && lazyParameters.None?
    {
      this.reducedFrom := reducedFrom;
      lazyParameters := None;
    }

    function ParameterCount(): int
    {
      |reducedFrom.parameters| - 1
    }

    /** The receiver type is the type of the removed `this` parameter. */
    function ReceiverType(): nat
      requires |reducedFrom.parameters| > 0
    {
      reducedFrom.parameters[0].parameterType
    }

    /** Wraps every underlying parameter but the first, in order. */
    method MakeParameters() returns (parameters: seq<ReducedParameter>)
      requires |reducedFrom.parameters| >= 1
      requires forall k :: 1 <= k < |reducedFrom.parameters| ==> reducedFrom.parameters[k].ordinal > 0
      ensures |parameters| == |reducedFrom.parameters| - 1 == ParameterCount()
      ensures forall i :: 0 <= i < |parameters| ==>
        parameters[i] == ReducedParameter(this, reducedFrom.parameters[i + 1])
    {
      var reducedFromParameters := reducedFrom.parameters;
      var count := |reducedFromParameters|;
      if count <= 1 {
        return [];
      }
      var arr := new ReducedParameter[count - 1](_ => ReducedParameter(this, reducedFromParameters[0]));
      for i := 0 to count - 1
        invariant forall j :: 0 <= j < i ==> arr[j] == ReducedParameter(this, reducedFromParameters[j + 1])
      {
        arr[i] := ReducedParameter(this, reducedFromParameters[i + 1]);
      }
      parameters := arr[..];
    }

    /** Parameters: computed on first use, then the same array on every later read. */
    method Parameters() returns (parameters: seq<ReducedParameter>)
      requires |reducedFrom.parameters| >= 1
      requires forall k :: 1 <= k < |reducedFrom.parameters| ==> reducedFrom.parameters[k].ordinal > 0
      requires lazyParameters.Some? ==> |lazyParameters.value| == |reducedFrom.parameters| - 1
      requires lazyParameters.Some? ==> forall i :: 0 <= i < |lazyParameters.value| ==>
        lazyParameters.value[i] == ReducedParameter(this, reducedFrom.parameters[i + 1])
      modifies this
      ensures lazyParameters == Some(parameters)
      ensures old(lazyParameters).Some? ==> parameters == old(lazyParameters).value
      ensures |parameters| == |reducedFrom.parameters| - 1 == ParameterCount()
      ensures forall i :: 0 <= i < |parameters| ==>
        parameters[i] == ReducedParameter(this, reducedFrom.parameters[i + 1])
    {
      if lazyParameters.None? {
        var made := MakeParameters();
        lazyParameters := Some(made);
      }
      parameters := lazyParameters.value;
    }

    /**
     * Equal when the same symbol or when the methods they were reduced from are
     * equal; null stands for any object that is not a reduced extension method.
     */
    predicate Equals(other: ReducedExtensionMethodSymbol?, methodEquals: (MethodSymbol, MethodSymbol) -> bool)
    {
      this == other || (other != null && methodEquals(reducedFrom, other.reducedFrom))
    }

    function GetHashCode(methodHash: MethodSymbol -> int): (r: int)
      ensures r == methodHash(reducedFrom)
    {
      methodHash(reducedFrom)
    }

    /**
     * Reduction does not infer any type itself: a type parameter of the
     * reduced-from method gets null, a missing argument or a type parameter of
     * another method throws.
     */
    function GetTypeInferredDuringReduction(reducedFromTypeParameter: Option<TypeParameter>): (r: Result<Option<nat>, ArgumentError>)
      ensures reducedFromTypeParameter.None? <==> r == Failure(ArgumentNull)
      ensures reducedFromTypeParameter.Some? && reducedFromTypeParameter.value.containingMethod != reducedFrom
              <==> r == Failure(ArgumentInvalid)
      ensures r.Success? ==> r.value.None?
    {
      if reducedFromTypeParameter.None? then Failure(ArgumentNull)
      else if reducedFromTypeParameter.value.containingMethod != reducedFrom then Failure(ArgumentInvalid)
      else Success(None)
    }
  }

  /** With positional ordinals underneath, reduced parameter i has ordinal i. */
  lemma ReducedOrdinalsArePositions(m: ReducedExtensionMethodSymbol, parameters: seq<ReducedParameter>)
    requires OrdinalsArePositions(m.reducedFrom)
    requires |parameters| == |m.reducedFrom.parameters| - 1
    requires forall i :: 0 <= i < |parameters| ==> parameters[i] == ReducedParameter(m, m.reducedFrom.parameters[i + 1])
    ensures forall i :: 0 <= i < |parameters| ==>
      parameters[i].underlying.ordinal > 0 && parameters[i].Ordinal() == i
  {
    forall i | 0 <= i < |parameters|
      ensures parameters[i].underlying.ordinal > 0 && parameters[i].Ordinal() == i
    {
      assert parameters[i].underlying == m.reducedFrom.parameters[i + 1];
    }
  }

  /** The types of a method's declared parameters, in order. */
  function DeclaredTypes(ps: seq<Parameter>): seq<nat>
  {
    seq(|ps|, i requires 0 <= i < |ps| => ps[i].parameterType)
  }

  /** The types of the parameters the reduced parameters wrap, in order. */
  function WrappedTypes(ps: seq<ReducedParameter>): seq<nat>
  {
    seq(|ps|, i requires 0 <= i < |ps| => ps[i].underlying.parameterType)
  }

  /**
   * Reduction splits the signature without losing anything: the receiver type
   * followed by the types of the reduced parameters, ParameterCount of them,
   * is the original method's list of parameter types.
   */
  lemma ReductionSplitsSignature(m: ReducedExtensionMethodSymbol, parameters: seq<ReducedParameter>)
    requires |m.reducedFrom.parameters| > 0
    requires |parameters| == |m.reducedFrom.parameters| - 1
    requires forall i :: 0 <= i < |parameters| ==> parameters[i] == ReducedParameter(m, m.reducedFrom.parameters[i + 1])
    ensures |parameters| == m.ParameterCount()
    ensures [m.ReceiverType()] + WrappedTypes(parameters) == DeclaredTypes(m.reducedFrom.parameters)
  {
    var whole := DeclaredTypes(m.reducedFrom.parameters);
    var split := [m.ReceiverType()] + WrappedTypes(parameters);
    assert |split| == |whole|;
    forall k | 0 <= k < |whole|
      ensures split[k] == whole[k]
    {
      if k > 0 {
        assert split[k] == WrappedTypes(parameters)[k - 1] == parameters[k - 1].underlying.parameterType;
      }
    }
  }

  /** Equal reduced methods have equal hashes whenever the underlying equality and hash agree. */
  lemma EqualsAgreesWithHash(a: ReducedExtensionMethodSymbol, b: ReducedExtensionMethodSymbol,
                             methodEquals: (MethodSymbol, MethodSymbol) -> bool, methodHash: MethodSymbol -> int)
    requires forall x, y :: methodEquals(x, y) ==> methodHash(x) == methodHash(y)
    requires a.Equals(b, methodEquals)
    ensures a.GetHashCode(methodHash) == b.GetHashCode(methodHash)
  {
  }
}
