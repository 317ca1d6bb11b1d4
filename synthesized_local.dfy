/**
 * SynthesizedLocal: a local variable the compiler introduces (a temporary, a
 * lowered `using` resource, a state machine slot, ...). It has no name; when
 * it has syntax, that syntax is its declaration.
 */
module SynthesizedLocal {
  import opened Wrappers
  import RK = RefKind

  /** The kind of a synthesized local; every kind but UserDefined displays by its enumeration name. */
  datatype SynthesizedLocalKind = UserDefined | NamedKind(name: string)

  /** A type, with its display string in the test format. */
  datatype TypeSymbol = TypeSymbol(identity: nat, isVoid: bool, display: string)

  datatype Location = Location(treeOrdinal: nat, position: nat)

  /** A syntax node: the location and the syntax reference it yields. */
  datatype SyntaxNode = SyntaxNode(location: Location, reference: nat)

  datatype SynthesizedLocal = SynthesizedLocal(
    containingMethod: Option<nat>,
    localType: TypeSymbol,
    kind: SynthesizedLocalKind,
    syntax: Option<SyntaxNode>,
    isPinned: bool,
    refKind: RK.RefKind)
  {
    /** What the debug-build constructor asserts; long-lived kinds are known to the rest of the compiler. */
    ghost predicate Valid(isLongLived: SynthesizedLocalKind -> bool)
    {
      !localType.isVoid && (!isLongLived(kind) || syntax.Some?)
    }

    /** A copy with another kind and syntax; everything else is kept. */
    function WithSynthesizedLocalKindAndSyntax(newKind: SynthesizedLocalKind, newSyntax: Option<SyntaxNode>): (r: SynthesizedLocal)
      ensures r.kind == newKind && r.syntax == newSyntax
      ensures r.containingMethod == containingMethod && r.localType == localType
      ensures r.isPinned == isPinned && r.refKind == refKind
    {
      SynthesizedLocal(containingMethod, localType, newKind, newSyntax, isPinned, refKind)
    }

    /** Synthesized locals are unnamed. */
    function Name(): (r: Option<string>)
      ensures r.None?
    {
      None
    }

    /** At most one location, that of the declarator; none exactly when there is no declarator. */
    function Locations(): (r: seq<Location>)
      ensures |r| <= 1
      ensures r == [] <==> syntax.None?
      ensures r != [] ==> r[0] == GetDeclaratorSyntax().location
    {
      if syntax.None? then [] else [syntax.value.location]
    }

    /** One reference per location: the declarator's, when there is one. */
    function DeclaringSyntaxReferences(): (r: seq<nat>)
      ensures |r| == |Locations()|
      ensures r != [] ==> r[0] == GetDeclaratorSyntax().reference
    {
      if syntax.None? then [] else [syntax.value.reference]
    }

    /** The declarator is the syntax, which must exist. */
    function GetDeclaratorSyntax(): SyntaxNode
      requires syntax.Some?
    {
      syntax.value
    }

    /** The release-build display: the kind ("<temp>" for UserDefined), a space, the type. */
    function DebuggerDisplay(): (r: string)
      ensures kind.UserDefined? ==> r == "<temp> " + localType.display
      ensures kind.NamedKind? ==> r == kind.name + " " + localType.display
    {
      (if kind == UserDefined then "<temp>" else kind.name) + " " + localType.display
    }
  }

  const IsImplicitlyDeclared: bool := true
  const IsCompilerGenerated: bool := true

  /** The constructor: the type must not be void and a long-lived local must have syntax. */
  function NewSynthesizedLocal(containingMethod: Option<nat>, localType: TypeSymbol, kind: SynthesizedLocalKind,
                               syntax: Option<SyntaxNode>, isPinned: bool, refKind: RK.RefKind,
                               isLongLived: SynthesizedLocalKind -> bool): (r: SynthesizedLocal)
    requires !localType.isVoid
    requires !isLongLived(kind) || syntax.Some?
    ensures r.Valid(isLongLived)
    ensures r.containingMethod == containingMethod && r.localType == localType && r.kind == kind
    ensures r.syntax == syntax && r.isPinned == isPinned && r.refKind == refKind
  {
    SynthesizedLocal(containingMethod, localType, kind, syntax, isPinned, refKind)
  }

  /** Re-kinding keeps a local valid exactly when the new kind's demand for syntax is met. */
  lemma WithKindAndSyntaxValid(l: SynthesizedLocal, newKind: SynthesizedLocalKind, newSyntax: Option<SyntaxNode>,
                               isLongLived: SynthesizedLocalKind -> bool)
    requires l.Valid(isLongLived)
    ensures l.WithSynthesizedLocalKindAndSyntax(newKind, newSyntax).Valid(isLongLived)
            <==> !isLongLived(newKind) || newSyntax.Some?
  {
  }

  /** A valid long-lived local is declared somewhere: it has exactly its declarator's location and reference. */
  lemma LongLivedLocalIsDeclared(l: SynthesizedLocal, isLongLived: SynthesizedLocalKind -> bool)
    requires l.Valid(isLongLived) && isLongLived(l.kind)
    ensures l.Locations() == [l.GetDeclaratorSyntax().location]
    ensures l.DeclaringSyntaxReferences() == [l.GetDeclaratorSyntax().reference]
  {
  }
}
