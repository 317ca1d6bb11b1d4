/** RefKind: how a parameter is passed. The enumeration is stored in a byte, so any byte value can occur. */
module RefKind {
  import opened Wrappers

  newtype RefKind = x: int | 0 <= x < 0x100

  const None: RefKind := 0
  const Ref: RefKind := 1
  const Out: RefKind := 2

  /** The keyword for a by-reference kind; null for every other value. */
  function ToDisplayString(kind: RefKind): (r: Option<string>)
    ensures r.Some? <==> kind == Ref || kind == Out
    ensures kind == Out ==> r == Some("out")
    ensures kind == Ref ==> r == Some("ref")
  {
    if kind == Out then Some("out")
    else if kind == Ref then Some("ref")
    else Option.None
  }

  /** The keyword followed by a space, or the empty string when there is no keyword. */
  function ToPrefix(kind: RefKind): (r: string)
    ensures r == "" <==> ToDisplayString(kind).None?
  {
    if kind == Out then "out "
    else if kind == Ref then "ref "
    else ""
  }

  /** The prefix is exactly the display string followed by a space. */
  lemma PrefixIsDisplayStringAndSpace(kind: RefKind)
    ensures ToDisplayString(kind).Some? ==> ToPrefix(kind) == ToDisplayString(kind).value + " "
    ensures ToDisplayString(kind).None? ==> ToPrefix(kind) == ""
  {
  }
}
