/**
 * The part of a green (immutable, position-free) syntax node that the syntax
 * lists and tokens rely on: its kind, its full width, whether it is present
 * in the source text, and the diagnostics and annotations attached to it.
 */
module GreenNode {
  import opened Wrappers

  /** SyntaxKind is an enumeration over a 16-bit unsigned integer. */
  newtype SyntaxKind = x: int | 0 <= x < 0x1_0000

  /** The numeric value of SyntaxKind.IdentifierToken. */
  const IdentifierToken: SyntaxKind := 8508

  /** Diagnostics and annotations are carried by identity only. */
  type DiagnosticId = nat
  type AnnotationId = nat

  /**
   * A green child: a list element, a separator token or a trivia list. Only
   * what a parent reads from it is kept.
   */
  datatype GreenNode = GreenNode(kind: SyntaxKind, fullWidth: nat, isNotMissing: bool, isToken: bool)

  /** The fields every green node carries. */
  datatype Header = Header(
    kind: SyntaxKind,
    fullWidth: nat,
    isNotMissing: bool,
    diagnostics: seq<DiagnosticId>,
    annotations: seq<AnnotationId>)

  /**
   * Accounting for a child: the parent grows by the child's full width and is
   * present in the text when the child is.
   */
  function AdjustFlagsAndWidth(h: Header, child: GreenNode): (r: Header)
    ensures r.fullWidth == h.fullWidth + child.fullWidth
    ensures r.isNotMissing <==> h.isNotMissing || child.isNotMissing
    ensures r.kind == h.kind && r.diagnostics == h.diagnostics && r.annotations == h.annotations
  {
    h.(fullWidth := h.fullWidth + child.fullWidth, isNotMissing := h.isNotMissing || child.isNotMissing)
  }

  /** AdjustFlagsAndWidth applied only when an optional child is present. */
  function AdjustOptional(h: Header, child: Option<GreenNode>): (r: Header)
    ensures r.fullWidth == h.fullWidth + WidthOf(child)
    ensures child.None? ==> r == h
    ensures r.kind == h.kind && r.diagnostics == h.diagnostics && r.annotations == h.annotations
  {
    if child.Some? then AdjustFlagsAndWidth(h, child.value) else h
  }

  /** The width an optional child contributes: zero when it is absent. */
  function WidthOf(child: Option<GreenNode>): nat
  {
    if child.Some? then child.value.fullWidth else 0
  }

  /** The total full width of a sequence of children. */
  function SumWidths(cs: seq<GreenNode>): nat
  {
    if |cs| == 0 then 0 else SumWidths(cs[..|cs| - 1]) + cs[|cs| - 1].fullWidth
  }

  /** The offset at which child `i` starts inside its parent. */
  function Offset(cs: seq<GreenNode>, i: nat): nat
    requires i <= |cs|
  {
    SumWidths(cs[..i])
  }

  /** The start offset of every child, in slot order. */
  function Offsets(cs: seq<GreenNode>): (r: seq<int>)
    ensures |r| == |cs|
    ensures forall i :: 0 <= i < |cs| ==> r[i] == Offset(cs, i)
  {
    seq(|cs|, i requires 0 <= i < |cs| => Offset(cs, i))
  }

  /** A child starts where the previous one ends. */
  lemma OffsetStep(cs: seq<GreenNode>, i: nat)
    requires i < |cs|
    ensures Offset(cs, i + 1) == Offset(cs, i) + cs[i].fullWidth
  {
    assert cs[..i + 1][..i] == cs[..i];
  }

  /** Offsets never decrease, and the last child ends at the total width. */
  lemma {:induction false} OffsetMonotone(cs: seq<GreenNode>, i: nat, j: nat)
    requires i <= j <= |cs|
    ensures Offset(cs, i) <= Offset(cs, j)
    decreases j - i
  {
    if i < j {
      OffsetStep(cs, j - 1);
      OffsetMonotone(cs, i, j - 1);
    }
  }

  lemma OffsetOfEnd(cs: seq<GreenNode>)
    ensures Offset(cs, |cs|) == SumWidths(cs)
  {
    assert cs[..|cs|] == cs;
  }

  /**
   * The values a node writes to an object stream. BaseFields stands for what
   * the green node base class writes (kind, diagnostics, annotations); the
   * derived width and presence flag are recomputed by the readers.
   */
  datatype Field<T> =
    | BaseFields(kind: SyntaxKind, diagnostics: seq<DiagnosticId>, annotations: seq<AnnotationId>)
    | StringField(s: string)
    | Int16Field(v: int)
    | NodeField(node: Option<GreenNode>)
    | ValueField(value: T)
    | ChildrenField(children: seq<GreenNode>)

  /** What the base class writes for a header. */
  function WriteHeader<T>(h: Header): (r: Field<T>)
    ensures r.BaseFields? && r.kind == h.kind
  {
    BaseFields(h.kind, h.diagnostics, h.annotations)
  }

  /**
   * A 16-bit unsigned kind written as a signed 16-bit integer, as
   * `WriteInt16((short)kind)` does: values above 32767 wrap to negatives.
   */
  function ToInt16(k: SyntaxKind): (v: int)
    ensures -0x8000 <= v < 0x8000
    ensures v % 0x1_0000 == k as int % 0x1_0000
  {
    if k < 0x8000 then k as int else k as int - 0x1_0000
  }

  /** `(SyntaxKind)reader.ReadInt16()`: the unchecked conversion back. */
  function FromInt16(v: int): (k: SyntaxKind)
    requires -0x8000 <= v < 0x8000
    ensures k as int % 0x1_0000 == v % 0x1_0000
  {
    if v < 0 then (v + 0x1_0000) as SyntaxKind else v as SyntaxKind
  }

  lemma Int16RoundTrip(k: SyntaxKind)
    ensures FromInt16(ToInt16(k)) == k
  {
  }
}
