/**
 * SyntaxDiagnosticInfo: a diagnostic produced while parsing, located by an
 * offset and a width relative to the node that carries it.
 */
module SyntaxDiagnosticInfo {
  import opened Wrappers

  /** The CLR's 32-bit signed integer. */
  newtype Int32 = x: int | -0x8000_0000 <= x < 0x8000_0000

  /** Message arguments are carried by identity only. */
  type ArgumentId = nat

  datatype SyntaxDiagnosticInfo = SyntaxDiagnosticInfo(code: int, arguments: seq<ArgumentId>, offset: Int32, width: Int32)

  /** Every diagnostic built by a constructor has a non-negative width. */
  ghost predicate Valid(d: SyntaxDiagnosticInfo)
  {
    d.width >= 0
  }

  function New(offset: Int32, width: Int32, code: int, arguments: seq<ArgumentId>): (r: SyntaxDiagnosticInfo)
    requires width >= 0
    ensures Valid(r)
    ensures r.offset == offset && r.width == width && r.code == code && r.arguments == arguments
  {
    SyntaxDiagnosticInfo(code, arguments, offset, width)
  }

  /** The overload without arguments passes the empty argument list. */
  function NewWithoutArguments(offset: Int32, width: Int32, code: int): (r: SyntaxDiagnosticInfo)
    requires width >= 0
    ensures Valid(r) && r.arguments == []
    ensures r == New(offset, width, code, [])
  {
    New(offset, width, code, [])
  }

  /** The code-only overloads place the diagnostic at offset 0 with width 0. */
  function NewAtNodeStart(code: int, arguments: seq<ArgumentId>): (r: SyntaxDiagnosticInfo)
    ensures Valid(r) && r.offset == 0 && r.width == 0
    ensures r.code == code && r.arguments == arguments
  {
    New(0, 0, code, arguments)
  }

  /** WithOffset moves the diagnostic and keeps its width, code and arguments. */
  function WithOffset(d: SyntaxDiagnosticInfo, offset: Int32): (r: SyntaxDiagnosticInfo)
    requires Valid(d)
    ensures Valid(r)
    ensures r.offset == offset
    ensures r.width == d.width && r.code == d.code && r.arguments == d.arguments
  {
    New(offset, d.width, d.code, d.arguments)
  }

  lemma WithOffsetLaws(d: SyntaxDiagnosticInfo, a: Int32, b: Int32)
    requires Valid(d)
    ensures WithOffset(WithOffset(d, a), b) == WithOffset(d, b)
    ensures WithOffset(d, d.offset) == d
  {
  }

  /** The fields written to an object stream; BaseInfo is what the base diagnostic writes. */
  datatype DiagnosticField = BaseInfo(code: int, arguments: seq<ArgumentId>) | Int32Field(v: Int32)

  /** WriteTo: the base diagnostic fields, then the offset and the width as 32-bit integers. */
  function WriteTo(d: SyntaxDiagnosticInfo): (r: seq<DiagnosticField>)
    ensures |r| == 3 && r[0].BaseInfo?
    ensures r[1] == Int32Field(d.offset) && r[2] == Int32Field(d.width)
  {
    [BaseInfo(d.code, d.arguments), Int32Field(d.offset), Int32Field(d.width)]
  }

  /** The reader constructor reads the base fields, then the offset, then the width. */
  function ReadFrom(f: seq<DiagnosticField>): (r: Option<SyntaxDiagnosticInfo>)
    ensures r.Some? <==> |f| == 3 && f[0].BaseInfo? && f[1].Int32Field? && f[2].Int32Field?
    ensures r.Some? ==> r.value.offset == f[1].v && r.value.width == f[2].v
  {
    if |f| == 3 && f[0].BaseInfo? && f[1].Int32Field? && f[2].Int32Field?
    then Some(SyntaxDiagnosticInfo(f[0].code, f[0].arguments, f[1].v, f[2].v))
    else None
  }

  /** Writing then reading gives the same diagnostic, and reading then writing the same fields. */
  lemma RoundTrip(d: SyntaxDiagnosticInfo, f: seq<DiagnosticField>)
    ensures ReadFrom(WriteTo(d)) == Some(d)
    ensures ReadFrom(f).Some? ==> WriteTo(ReadFrom(f).value) == f
  {
  }
}
