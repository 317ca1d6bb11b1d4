/**
 * LocalDefinition: a slot in a method's local signature as the code generator
 * emits it: its index, optional name, type and slot constraints.
 */
module LocalDefinition {
  import opened Wrappers
  import opened Strings

  /** LocalSlotConstraints, a byte of flags. */
  type LocalSlotConstraints = bv8

  const ConstraintsNone: LocalSlotConstraints := 0
  const ByRef: LocalSlotConstraints := 1
  const Pinned: LocalSlotConstraints := 2

  datatype Location = NoLocation | SourceLocation(treeOrdinal: nat, position: nat)

  /** The local's symbol as far as its location goes; None locations is a default array. */
  datatype LocalSymbol = LocalSymbol(locations: Option<seq<Location>>)

  /** A type reference, with the text its ToString gives. */
  datatype TypeReference = TypeReference(identity: nat, display: string)

  datatype LocalDefinition = LocalDefinition(
    symbolOpt: Option<LocalSymbol>,
    nameOpt: Option<string>,
    localType: TypeReference,
    slot: int,
    pdbAttributes: nat,
    constraints: LocalSlotConstraints,
    isDynamic: bool)
  {
    predicate IsPinned()
    {
      constraints & Pinned != 0
    }

    predicate IsReference()
    {
      constraints & ByRef != 0
    }

    function SlotIndex(): int
    {
      slot
    }

    /**
     * One of the symbol's locations, the first when it has any; a definition
     * without a symbol, or whose symbol has a default or empty array, has none.
     */
    function Location(): (r: Location)
      ensures r != NoLocation ==> symbolOpt.Some? && symbolOpt.value.locations.Some? && r in symbolOpt.value.locations.value
      ensures symbolOpt.None? || symbolOpt.value.locations.None? || symbolOpt.value.locations.value == [] ==> r == NoLocation
      ensures symbolOpt.Some? && symbolOpt.value.locations.Some? && symbolOpt.value.locations.value != []
              ==> r == symbolOpt.value.locations.value[0]
    {
      if symbolOpt.Some? && symbolOpt.value.locations.Some? && |symbolOpt.value.locations.value| > 0
      then symbolOpt.value.locations.value[0]
      else NoLocation
    }

    /** "slot: name (type)", naming an unnamed local "<unnamed>". */
    function DebuggerDisplay(): (r: string)
      ensures nameOpt.Some? ==> r == IntToString(slot) + ": " + nameOpt.value + " (" + localType.display + ")"
      ensures nameOpt.None? ==> r == IntToString(slot) + ": <unnamed> (" + localType.display + ")"
    {
      IntToString(slot) + ": " + (if nameOpt.Some? then nameOpt.value else "<unnamed>") + " (" + localType.display + ")"
    }

    /** A local definition is never a constant: asking for its value is unreachable. */
    function CompileTimeValue(): (r: Result<nat, string>)
      ensures r.Failure?
    {
      Failure("unreachable")
    }
  }

  /** The constructor stores its arguments. */
  function NewLocalDefinition(symbolOpt: Option<LocalSymbol>, nameOpt: Option<string>, localType: TypeReference, slot: int,
                              pdbAttributes: nat, constraints: LocalSlotConstraints, isDynamic: bool): (r: LocalDefinition)
    ensures r.SlotIndex() == slot && r.nameOpt == nameOpt && r.localType == localType && r.constraints == constraints
    ensures r.symbolOpt == symbolOpt && r.pdbAttributes == pdbAttributes && r.isDynamic == isDynamic
  {
    LocalDefinition(symbolOpt, nameOpt, localType, slot, pdbAttributes, constraints, isDynamic)
  }

  /** The two constraint flags are independent: adding one leaves the other as it was. */
  lemma ConstraintFlagsIndependent(d: LocalDefinition)
    ensures d.(constraints := d.constraints | Pinned).IsPinned()
    ensures d.(constraints := d.constraints | Pinned).IsReference() == d.IsReference()
    ensures d.(constraints := d.constraints | ByRef).IsReference()
    ensures d.(constraints := d.constraints | ByRef).IsPinned() == d.IsPinned()
    ensures !d.(constraints := ConstraintsNone).IsPinned() && !d.(constraints := ConstraintsNone).IsReference()
  {
  }

  /** The display starts with the slot index and a colon. */
  lemma DisplayStartsWithSlot(d: LocalDefinition)
    ensures var prefix := IntToString(d.slot) + ": ";
            |d.DebuggerDisplay()| > |prefix| && d.DebuggerDisplay()[..|prefix|] == prefix
  {
    var prefix := IntToString(d.slot) + ": ";
    var rest := (if d.nameOpt.Some? then d.nameOpt.value else "<unnamed>") + " (" + d.localType.display + ")";
    assert d.DebuggerDisplay() == prefix + rest;
  }
}
