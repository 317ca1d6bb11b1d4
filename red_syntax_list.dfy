/**
 * Red syntax lists: the position-aware wrappers over a green list. Each keeps
 * a cache of the red nodes it has handed out; a slot is materialized on first
 * request and the same node is returned afterwards.
 */
module RedSyntaxList {
  import opened GreenNode

  /** A red node: a green node placed in a tree at an absolute position. */
  class RedNode {
    const green: GreenNode
    const parent: object?
    const position: int

    constructor (green: GreenNode, parent: object?, position: int)
      ensures this.green == green && this.parent == parent && this.position == position
    {
      this.green := green;
      this.parent := parent;
      this.position := position;
    }
  }

  /** A cached red node is the red form of green slot `slot` of a list at `position`. */
  ghost predicate Materializes(node: RedNode?, green: seq<GreenNode>, slot: int, parent: object?, position: int)
  {
    0 <= slot < |green|
    && (node != null ==>
          node.green == green[slot] && node.parent == parent
          && node.position == position + Offset(green, slot))
  }

  /** SyntaxList.WithManyChildren: one cache entry per slot. */
  class WithManyChildren {
    const green: seq<GreenNode>
    const parent: object?
    const position: int
    const children: array<RedNode?>

    ghost predicate Valid()
      reads children
    {
      children.Length == |green|
      && forall j :: 0 <= j < children.Length ==> Materializes(children[j], green, j, parent, position)
    }

    constructor (green: seq<GreenNode>, parent: object?, position: int)
      ensures Valid()
      ensures this.green == green && this.parent == parent && this.position == position
      ensures fresh(children)
      ensures forall j :: 0 <= j < children.Length ==> children[j] == null
    {
      this.green := green;
      this.parent := parent;
      this.position := position;
      this.children := new RedNode?[|green|](_ => null);
    }

    function GetCachedSlot(index: int): (r: RedNode?)
      reads children
      requires Valid()
      requires 0 <= index < |green|
      ensures Materializes(r, green, index, parent, position)
    {
      children[index]
    }

    method GetNodeSlot(index: int) returns (r: RedNode?)
      requires Valid()
      requires 0 <= index < |green|
      modifies children
      ensures Valid()
      ensures r != null && children[index] == r
      ensures Materializes(r, green, index, parent, position)
      ensures old(children[index]) != null ==> r == old(children[index])
      ensures old(children[index]) == null ==> fresh(r)
      ensures forall j :: 0 <= j < children.Length && j != index ==> children[j] == old(children[j])
    {
      r := children[index];
      if r == null {
        r := new RedNode(green[index], parent, position + Offset(green, index));
        children[index] := r;
      }
    }
  }

  /**
   * SyntaxList.SeparatedWithManyChildren: elements sit at even slots and
   * separators at odd ones; only elements are cached, element `i` in entry
   * `i / 2`, and a separator slot answers null.
   */
  class SeparatedWithManyChildren {
    const green: seq<GreenNode>
    const parent: object?
    const position: int
    const children: array<RedNode?>

    ghost predicate Valid()
      reads children
    {
      children.Length == (|green| + 1) / 2
      && forall j :: 0 <= j < children.Length ==> Materializes(children[j], green, 2 * j, parent, position)
    }

    constructor (green: seq<GreenNode>, parent: object?, position: int)
      ensures Valid()
      ensures this.green == green && this.parent == parent && this.position == position
      ensures fresh(children)
      ensures forall j :: 0 <= j < children.Length ==> children[j] == null
    {
      this.green := green;
      this.parent := parent;
      this.position := position;
      this.children := new RedNode?[(|green| + 1) / 2](_ => null);
    }

    function GetCachedSlot(i: int): (r: RedNode?)
      reads children
      requires Valid()
      requires i % 2 == 1 || 0 <= i < |green|
      ensures i % 2 == 1 ==> r == null
      ensures 0 <= i < |green| ==> Materializes(r, green, i, parent, position)
    {
      if i % 2 != 0 then null else children[i / 2]
    }

    method GetNodeSlot(i: int) returns (r: RedNode?)
      requires Valid()
      requires i % 2 == 1 || 0 <= i < |green|
      modifies children
      ensures Valid()
      ensures i % 2 == 1 ==> r == null && unchanged(children)
      ensures i % 2 == 0 ==> r != null && children[i / 2] == r
      ensures 0 <= i < |green| ==> Materializes(r, green, i, parent, position)
      ensures i % 2 == 0 && old(children[i / 2]) != null ==> r == old(children[i / 2])
      ensures i % 2 == 0 && old(children[i / 2]) == null ==> fresh(r)
      ensures forall j :: 0 <= j < children.Length && 2 * j != i ==> children[j] == old(children[j])
    {
      if i % 2 != 0 {
        return null;
      }
      r := children[i / 2];
      if r == null {
        r := new RedNode(green[i], parent, position + Offset(green, i));
        children[i / 2] := r;
      }
    }
  }

  /**
   * SyntaxList.WithThreeChildren: three cache fields. The middle slot is a
   * separator position; when it holds a token no red node is made for it.
   */
  class WithThreeChildren {
    const green: seq<GreenNode>
    const parent: object?
    const position: int
    var child0: RedNode?
    var child1: RedNode?
    var child2: RedNode?

    ghost predicate Valid()
      reads this
    {
      |green| == 3
      && Materializes(child0, green, 0, parent, position)
      && Materializes(child1, green, 1, parent, position)
      && Materializes(child2, green, 2, parent, position)
      && (child1 != null ==> !green[1].isToken)
    }

    constructor (green: seq<GreenNode>, parent: object?, position: int)
      requires |green| == 3
      ensures Valid()
      ensures this.green == green && this.parent == parent && this.position == position
      ensures child0 == null && child1 == null && child2 == null
    {
      this.green := green;
      this.parent := parent;
      this.position := position;
      this.child0, this.child1, this.child2 := null, null, null;
    }

    function GetCachedSlot(index: int): (r: RedNode?)
      reads this
      requires Valid()
      ensures !(0 <= index < 3) ==> r == null
      ensures 0 <= index < 3 ==> Materializes(r, green, index, parent, position)
    {
      match index
      case 0 => child0
      case 1 => child1
      case 2 => child2
      case _ => null
    }

    method GetNodeSlot(index: int) returns (r: RedNode?)
      requires Valid()
      modifies this
      ensures Valid()
      ensures r == GetCachedSlot(index)
      ensures !(0 <= index < 3) ==> r == null
      ensures (index == 0 || index == 2 || (index == 1 && !green[1].isToken)) ==> r != null
      ensures index == 1 && green[1].isToken ==> r == null
      ensures 0 <= index < 3 && old(GetCachedSlot(index)) != null ==> r == old(GetCachedSlot(index))
      ensures 0 <= index < 3 && old(GetCachedSlot(index)) == null && r != null ==> fresh(r)
      ensures index != 0 ==> child0 == old(child0)
      ensures index != 1 ==> child1 == old(child1)
      ensures index != 2 ==> child2 == old(child2)
    {
      match index
      case 0 =>
        if child0 == null {
          child0 := new RedNode(green[0], parent, position + Offset(green, 0));
        }
        r := child0;
      case 1 =>
        if child1 == null && !green[1].isToken {
          child1 := new RedNode(green[1], parent, position + Offset(green, 1));
        }
        r := child1;
      case 2 =>
        if child2 == null {
          child2 := new RedNode(green[2], parent, position + Offset(green, 2));
        }
        r := child2;
      case _ =>
        r := null;
    }
  }

  /** Asking twice for a slot returns the same node, and the cache then holds it. */
  method GetNodeSlotTwice(l: WithManyChildren, index: int) returns (first: RedNode?, second: RedNode?)
    requires l.Valid()
    requires 0 <= index < |l.green|
    modifies l.children
    ensures first != null && first == second
    ensures l.Valid() && l.GetCachedSlot(index) == first
  {
    first := l.GetNodeSlot(index);
    second := l.GetNodeSlot(index);
  }
}
