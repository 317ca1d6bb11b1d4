/**
 * Green syntax lists: the two-child list, which keeps its children in fields,
 * and the list with many children, which precomputes the start offset of every
 * slot so that the slot containing a text offset is found by binary search.
 */
module GreenSyntaxList {
  import opened Wrappers
  import opened GreenNode

  /** The numeric value of SyntaxKind.List. */
  const ListKind: SyntaxKind := 1

  /** A fresh list node: no width and not present until a child is added. */
  const EmptyListHeader: Header := Header(ListKind, 0, false, [], [])

  /**
   * What the base reader restores before the children are read back: the
   * written kind, diagnostics and annotations, with no width yet.
   */
  function ReadHeader<T>(base: Field<T>): Header
    requires base.BaseFields?
  {
    Header(base.kind, 0, false, base.diagnostics, base.annotations)
  }

  /** The base list constructor accounts for every child in slot order. */
  function AdjustAll(h: Header, cs: seq<GreenNode>): (r: Header)
    ensures r.fullWidth == h.fullWidth + SumWidths(cs)
    ensures r.kind == h.kind && r.diagnostics == h.diagnostics && r.annotations == h.annotations
  {
    if |cs| == 0 then h else AdjustFlagsAndWidth(AdjustAll(h, cs[..|cs| - 1]), cs[|cs| - 1])
  }

  predicate Sorted(s: seq<int>)
  {
    forall i, j :: 0 <= i <= j < |s| ==> s[i] <= s[j]
  }

  lemma OffsetsSorted(cs: seq<GreenNode>)
    ensures Sorted(Offsets(cs))
  {
    forall i, j | 0 <= i <= j < |cs|
      ensures Offsets(cs)[i] <= Offsets(cs)[j]
    {
      OffsetMonotone(cs, i, j);
    }
  }

  /**
   * The upper-bound binary search over a sorted array: the first index whose
   * value exceeds `value`, or the length when there is none.
   */
  method BinarySearchUpperBound(a: array<int>, value: int) returns (r: int)
    requires Sorted(a[..])
    ensures 0 <= r <= a.Length
    ensures forall i :: 0 <= i < r ==> a[i] <= value
    ensures forall i :: r <= i < a.Length ==> a[i] > value
  {
    var low, high := 0, a.Length - 1;
    while low <= high
      invariant 0 <= low <= high + 1 <= a.Length
      invariant forall i :: 0 <= i < low ==> a[i] <= value
      invariant forall i :: high < i < a.Length ==> a[i] > value
      decreases high - low
    {
      var middle := low + (high - low) / 2;
      if a[middle] > value {
        high := middle - 1;
      } else {
        low := middle + 1;
      }
    }
    r := low;
  }

  /**
   * Slot `r` of `cs` is the one containing `offset`: it starts at or before
   * the offset, ends after it, and no later slot starts at or before it.
   */
  ghost predicate SlotContains(cs: seq<GreenNode>, offset: int, r: int)
  {
    0 <= r < |cs|
    && Offset(cs, r) <= offset < Offset(cs, r) + cs[r].fullWidth
    && (forall j :: r < j < |cs| ==> Offset(cs, j) > offset)
  }

  /** At most one slot contains a given offset. */
  lemma SlotContainsUnique(cs: seq<GreenNode>, offset: int, r1: int, r2: int)
    requires SlotContains(cs, offset, r1) && SlotContains(cs, offset, r2)
    ensures r1 == r2
  {
  }

  /**
   * Widths [3, 0, 7, 2, 5]: offset 3 lies in the third slot (index 2), not in
   * the zero-width slot 1 that starts at the same offset.
   */
  lemma FindSlotExample()
    ensures SlotContains(ExampleChildren(), 3, 2)
    ensures !SlotContains(ExampleChildren(), 3, 1)
  {
    var cs := ExampleChildren();
    OffsetStep(cs, 0);
    OffsetStep(cs, 1);
    OffsetStep(cs, 2);
    OffsetStep(cs, 3);
    assert cs[..0] == [];
  }

  function ExampleChildren(): seq<GreenNode>
  {
    var w := [3, 0, 7, 2, 5];
    seq(5, i requires 0 <= i < 5 => GreenNode(ListKind, w[i], true, false))
  }

  /** SyntaxList.WithLotsOfChildren: many children plus their start offsets. */
  class WithLotsOfChildren {
    const header: Header
    const children: seq<GreenNode>
    const childOffsets: array<int>

    ghost predicate Valid()
      reads childOffsets
    {
      childOffsets[..] == Offsets(children)
      && header.fullWidth == SumWidths(children)
    }

    constructor (children: seq<GreenNode>)
      ensures Valid()
      ensures this.children == children
      ensures header == AdjustAll(EmptyListHeader, children)
    {
      this.children := children;
      this.header := AdjustAll(EmptyListHeader, children);
      var offsets := CalculateOffsets(children);
      this.childOffsets := offsets;
    }

    /** The reader constructor: the children come from the stream, the offsets are recomputed. */
    constructor FromReader<T>(fields: seq<Field<T>>)
      requires |fields| == 2 && fields[0].BaseFields? && fields[1].ChildrenField?
      ensures Valid()
      ensures children == fields[1].children
      ensures header == AdjustAll(ReadHeader(fields[0]), children)
      ensures header.kind == fields[0].kind
    {
      this.children := fields[1].children;
      this.header := AdjustAll(ReadHeader(fields[0]), fields[1].children);
      var offsets := CalculateOffsets(fields[1].children);
      this.childOffsets := offsets;
    }

    /** The base class writes the header and the children; the offsets are not written. */
    function WriteTo<T>(): (r: seq<Field<T>>)
      ensures |r| == 2 && r[0].BaseFields? && r[1] == ChildrenField(children)
    {
      [WriteHeader(header), ChildrenField(children)]
    }

    static method CalculateOffsets(children: seq<GreenNode>) returns (childOffsets: array<int>)
      ensures fresh(childOffsets)
      ensures childOffsets[..] == Offsets(children)
    {
      var n := |children|;
      childOffsets := new int[n];
      var offset := 0;
      for i := 0 to n
        invariant offset == Offset(children, i)
        invariant forall j :: 0 <= j < i ==> childOffsets[j] == Offset(children, j)
      {
        childOffsets[i] := offset;
        OffsetStep(children, i);
        offset := offset + children[i].fullWidth;
      }
    }

    function GetSlotOffset(index: int): (r: int)
      reads childOffsets
      requires Valid()
      requires 0 <= index < |children|
      ensures r == Offset(children, index)
    {
      childOffsets[index]
    }

    method FindSlotIndexContainingOffset(offset: int) returns (r: int)
      requires Valid()
      requires 0 <= offset < header.fullWidth
      ensures SlotContains(children, offset, r)
      ensures children[r].fullWidth > 0
    {
      OffsetsSorted(children);
      assert |children| > 0;
      var upper := BinarySearchUpperBound(childOffsets, offset);
      assert childOffsets[0] == Offset(children, 0) == 0 by { assert children[..0] == []; }
      r := upper - 1;
      OffsetStep(children, r);
      if r + 1 == |children| {
        OffsetOfEnd(children);
      } else {
        assert childOffsets[r + 1] > offset;
      }
      forall j | r < j < |children|
        ensures Offset(children, j) > offset
      {
        assert childOffsets[j] > offset;
      }
    }
  }

  /** Offsets survive a write followed by a read, although they are never written. */
  method ReadAfterWrite(l: WithLotsOfChildren) returns (m: WithLotsOfChildren)
    requires l.Valid()
    ensures m.Valid()
    ensures m.children == l.children
    ensures m.childOffsets[..] == l.childOffsets[..]
    ensures m.header.fullWidth == l.header.fullWidth
    ensures m.header.kind == l.header.kind
    ensures m.header.diagnostics == l.header.diagnostics && m.header.annotations == l.header.annotations
  {
    m := new WithLotsOfChildren.FromReader<int>(l.WriteTo<int>());
  }

  /** SyntaxList.WithTwoChildren. */
  datatype WithTwoChildren = WithTwoChildren(header: Header, child0: GreenNode, child1: GreenNode)
  {
    const SlotCount: nat := 2

    /** The slots in order, the reference for GetSlot and CopyTo. */
    function Slots(): seq<GreenNode>
    {
      [child0, child1]
    }

    function GetSlot(index: int): (r: Option<GreenNode>)
      ensures 0 <= index < SlotCount ==> r == Some(Slots()[index])
      ensures !(0 <= index < SlotCount) ==> r.None?
    {
      match index
      case 0 => Some(child0)
      case 1 => Some(child1)
      case _ => None
    }

    function WriteTo<T>(): (r: seq<Field<T>>)
      ensures |r| == 3 && r[0].BaseFields? && r[0].kind == header.kind
      ensures r[1] == NodeField(Some(child0)) && r[2] == NodeField(Some(child1))
    {
      [WriteHeader(header), NodeField(Some(child0)), NodeField(Some(child1))]
    }
  }

  function NewWithTwoChildren(child0: GreenNode, child1: GreenNode): (r: WithTwoChildren)
    ensures r.Slots() == [child0, child1]
    ensures r.header.kind == ListKind
    ensures r.header.fullWidth == SumWidths(r.Slots())
    ensures r.header.isNotMissing <==> child0.isNotMissing || child1.isNotMissing
  {
    var h0 := AdjustFlagsAndWidth(EmptyListHeader, child0);
    SumWidthsTwo(child0, child1);
    WithTwoChildren(AdjustFlagsAndWidth(h0, child1), child0, child1)
  }

  lemma SumWidthsTwo(c0: GreenNode, c1: GreenNode)
    ensures SumWidths([c0, c1]) == c0.fullWidth + c1.fullWidth
  {
    var one, two := [c0], [c0, c1];
    assert one[..0] == [];
    assert SumWidths(one) == c0.fullWidth;
    assert two[..1] == one;
  }

  /** The reader constructor: two non-null children follow the base fields. */
  function ReadWithTwoChildren<T>(fields: seq<Field<T>>): (r: Option<WithTwoChildren>)
    ensures r.Some? <==> |fields| == 3 && fields[0].BaseFields?
                         && fields[1].NodeField? && fields[1].node.Some?
                         && fields[2].NodeField? && fields[2].node.Some?
    ensures r.Some? ==> r.value.header.fullWidth == SumWidths(r.value.Slots())
    ensures r.Some? ==> r.value.header.kind == fields[0].kind
    ensures r.Some? ==> r.value.header.diagnostics == fields[0].diagnostics
                        && r.value.header.annotations == fields[0].annotations
  {
    if |fields| == 3 && fields[0].BaseFields? && fields[1].NodeField? && fields[1].node.Some?
       && fields[2].NodeField? && fields[2].node.Some?
    then
      var h := ReadHeader(fields[0]);
      var c0 := fields[1].node.value;
      var c1 := fields[2].node.value;
      SumWidthsTwo(c0, c1);
      Some(WithTwoChildren(AdjustFlagsAndWidth(AdjustFlagsAndWidth(h, c0), c1), c0, c1))
    else None
  }

  /** Writing a two-child list and reading it back gives the same list. */
  lemma TwoChildrenRoundTrip(child0: GreenNode, child1: GreenNode, kind: SyntaxKind,
                             diagnostics: seq<DiagnosticId>, annotations: seq<AnnotationId>)
    ensures var l := NewWithTwoChildren(child0, child1);
            var d := l.(header := l.header.(kind := kind, diagnostics := diagnostics, annotations := annotations));
            ReadWithTwoChildren<int>(d.WriteTo<int>()) == Some(d)
  {
  }

  /** CopyTo stores both children at `offset` and leaves the rest of the array alone. */
  method CopyTo(l: WithTwoChildren, a: array<Option<GreenNode>>, offset: int)
    requires 0 <= offset && offset + 2 <= a.Length
    modifies a
    ensures a[offset] == Some(l.child0) && a[offset + 1] == Some(l.child1)
    ensures forall i :: 0 <= i < a.Length && i != offset && i != offset + 1 ==> a[i] == old(a[i])
  {
    a[offset] := Some(l.child0);
    a[offset + 1] := Some(l.child1);
  }
}
