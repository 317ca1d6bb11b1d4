/** OptimizationLevel: an enumeration over a 32-bit integer with two named members. */
module OptimizationLevel {
  newtype OptimizationLevel = x: int | -0x8000_0000 <= x < 0x8000_0000

  const Debug: OptimizationLevel := 0
  const Release: OptimizationLevel := 1

  /**
   * EnumBounds.IsValid: the value lies between the first and the last
   * member, which makes the valid values exactly the two named members.
   */
  function IsValid(value: OptimizationLevel): (r: bool)
    ensures r <==> value == Debug || value == Release
  {
    Debug <= value <= Release
  }
}
