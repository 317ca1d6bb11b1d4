/**
 * CommonModuleWellKnownAttributeData: what the well-known attributes on a
 * module say. It is written while attributes are decoded, then sealed, and
 * only read once sealed.
 */
module ModuleAttributeData {
  /** System.Runtime.InteropServices.CharSet, an int enumeration: None = 1 up to Auto = 4. */
  newtype CharSet = x: int | -0x8000_0000 <= x < 0x8000_0000

  const CharSetNone: CharSet := 1
  const CharSetAuto: CharSet := 4

  /** The values of the enumeration from None to Auto. */
  predicate IsValidCharSet(value: CharSet)
  {
    CharSetNone <= value <= CharSetAuto
  }

  class CommonModuleWellKnownAttributeData {
    /** The sealed state and the data-stored flag of the base class. */
    var isSealed: bool
    var anyDataStored: bool
    var hasDebuggableAttribute: bool
    /** The default character set as a byte; 0 means none was given. */
    var defaultCharacterSet: bv8

    constructor ()
      ensures !isSealed && !anyDataStored && !hasDebuggableAttribute && defaultCharacterSet == 0
    {
      isSealed := false;
      anyDataStored := false;
      hasDebuggableAttribute := false;
      defaultCharacterSet := 0;
    }

    /** The end of decoding: from here on the data is read only. */
    method Seal()
      requires !isSealed
      modifies this
      ensures isSealed
      ensures anyDataStored == old(anyDataStored) && hasDebuggableAttribute == old(hasDebuggableAttribute)
      ensures defaultCharacterSet == old(defaultCharacterSet)
    {
      isSealed := true;
    }

    function HasDebuggableAttribute(): bool
      reads this
      requires isSealed
    {
      hasDebuggableAttribute
    }

    method SetHasDebuggableAttribute(value: bool)
      requires !isSealed
      modifies this
      ensures hasDebuggableAttribute == value && anyDataStored
      ensures isSealed == old(isSealed) && defaultCharacterSet == old(defaultCharacterSet)
    {
      hasDebuggableAttribute := value;
      anyDataStored := true;
    }

    predicate HasDefaultCharSetAttribute()
      reads this
    {
      defaultCharacterSet != 0
    }

    function DefaultCharacterSet(): (r: CharSet)
      reads this
      requires isSealed && HasDefaultCharSetAttribute()
      ensures r as int == defaultCharacterSet as int
    {
      defaultCharacterSet as int as CharSet
    }

    /** The setter takes only valid character sets, so the byte it stores is non-zero. */
    method SetDefaultCharacterSet(value: CharSet)
      requires !isSealed
      requires IsValidCharSet(value)
      modifies this
      ensures defaultCharacterSet as int == value as int && anyDataStored
      ensures HasDefaultCharSetAttribute()
      ensures isSealed == old(isSealed) && hasDebuggableAttribute == old(hasDebuggableAttribute)
    {
      defaultCharacterSet := value as int as bv8;
      anyDataStored := true;
    }
  }

  /** A character set written before sealing reads back unchanged afterwards. */
  method CharSetRoundTrip(data: CommonModuleWellKnownAttributeData, value: CharSet) returns (read: CharSet)
    requires !data.isSealed && IsValidCharSet(value)
    modifies data
    ensures read == value
    ensures data.isSealed && data.anyDataStored
  {
    data.SetDefaultCharacterSet(value);
    data.Seal();
    read := data.DefaultCharacterSet();
  }

  /** The debuggable flag written before sealing reads back unchanged afterwards, and a character set written beside it survives. */
  method DebuggableRoundTrip(data: CommonModuleWellKnownAttributeData, value: bool) returns (read: bool)
    requires !data.isSealed
    modifies data
    ensures read == value
    ensures data.isSealed && data.anyDataStored
    ensures data.HasDefaultCharSetAttribute() == old(data.HasDefaultCharSetAttribute())
  {
    data.SetHasDebuggableAttribute(value);
    data.Seal();
    read := data.HasDebuggableAttribute();
  }
}
