/**
 * The green token family. A token is a header (kind, full width, presence,
 * diagnostics, annotations) plus the fields of one of eight variants. The
 * variant decides where the text and value come from and whether leading and
 * trailing trivia are stored; attaching trivia moves a token to the variant
 * that can hold it.
 */
module SyntaxToken {
  import opened Wrappers
  import opened GreenNode

  /** Optional trivia: a green trivia node or null. */
  type Trivia = Option<GreenNode>

  /** The source text of a token kind whose text is fixed (a keyword or punctuation). */
  type KindText = SyntaxKind -> string

  datatype Body<T> =
    | Identifier(text: string)
    | IdentifierExtended(contextualKind: SyntaxKind, text: string, valueText: string)
    | IdentifierWithTrailingTrivia(text: string, trailing: Trivia)
    | IdentifierWithTrivia(contextualKind: SyntaxKind, text: string, valueText: string, leading: Trivia, trailing: Trivia)
    | WithValue(text: string, value: T)
    | WithValueAndTrivia(text: string, value: T, leading: Trivia, trailing: Trivia)
    | WithTrivia(leading: Trivia, trailing: Trivia)
    | MissingWithTrivia(leading: Trivia, trailing: Trivia)
  {
    predicate IsIdentifier()
    {
      Identifier? || IdentifierExtended? || IdentifierWithTrailingTrivia? || IdentifierWithTrivia?
    }

    predicate HasLeadingField()
    {
      IdentifierWithTrivia? || WithValueAndTrivia? || WithTrivia? || MissingWithTrivia?
    }

    predicate HasTrailingField()
    {
      HasLeadingField() || IdentifierWithTrailingTrivia?
    }
  }

  datatype Token<T> = Token(header: Header, body: Body<T>)

  /** What `Value` answers: null, a string, or a boxed literal value. */
  datatype ObjectValue<T> = NullValue | StringValue(s: string) | BoxedValue(v: T)

  function Text<T>(t: Token<T>, kindText: KindText): (r: string)
    ensures t.body.MissingWithTrivia? ==> r == ""
  {
    match t.body
    case Identifier(text) => text
    case IdentifierExtended(_, text, _) => text
    case IdentifierWithTrailingTrivia(text, _) => text
    case IdentifierWithTrivia(_, text, _, _, _) => text
    case WithValue(text, _) => text
    case WithValueAndTrivia(text, _, _, _) => text
    case WithTrivia(_, _) => kindText(t.header.kind)
    case MissingWithTrivia(_, _) => ""
  }

  function LeadingTrivia<T>(t: Token<T>): (r: Trivia)
    ensures !t.body.HasLeadingField() ==> r.None?
  {
    if t.body.HasLeadingField() then t.body.leading else None
  }

  function TrailingTrivia<T>(t: Token<T>): (r: Trivia)
    ensures !t.body.HasTrailingField() ==> r.None?
  {
    if t.body.HasTrailingField() then t.body.trailing else None
  }

  /** Plain tokens answer their own kind; the extended identifiers store one. */
  function ContextualKind<T>(t: Token<T>): (r: SyntaxKind)
    ensures !(t.body.IdentifierExtended? || t.body.IdentifierWithTrivia?) ==> r == t.header.kind
  {
    if t.body.IdentifierExtended? || t.body.IdentifierWithTrivia? then t.body.contextualKind else t.header.kind
  }

  /**
   * `Value`. The plain token with trivia inherits the base token's answer,
   * which is not part of this model.
   */
  function Value<T>(t: Token<T>): (r: ObjectValue<T>)
    requires !t.body.WithTrivia?
    ensures t.body.IsIdentifier() ==> r.StringValue?
    ensures t.body.MissingWithTrivia? ==> (r.StringValue? <==> t.header.kind == IdentifierToken)
    ensures t.body.MissingWithTrivia? && r.StringValue? ==> r.s == ""
  {
    match t.body
    case Identifier(text) => StringValue(text)
    case IdentifierExtended(_, _, valueText) => StringValue(valueText)
    case IdentifierWithTrailingTrivia(text, _) => StringValue(text)
    case IdentifierWithTrivia(_, _, valueText, _, _) => StringValue(valueText)
    case WithValue(_, value) => BoxedValue(value)
    case WithValueAndTrivia(_, value, _, _) => BoxedValue(value)
    case MissingWithTrivia(_, _) => if t.header.kind == IdentifierToken then StringValue("") else NullValue
  }

  /**
   * `ValueText`. A literal renders its value with the invariant-culture
   * conversion, given here as `toInvariantString`; the two trivia-only
   * variants inherit the base token's answer, which is not part of this model.
   */
  function ValueText<T>(t: Token<T>, toInvariantString: T -> string): (r: string)
    requires !t.body.WithTrivia? && !t.body.MissingWithTrivia?
    ensures t.body.IsIdentifier() ==> Value(t) == StringValue(r)
    ensures (t.body.WithValue? || t.body.WithValueAndTrivia?) ==> r == toInvariantString(t.body.value)
  {
    match t.body
    case Identifier(text) => text
    case IdentifierExtended(_, _, valueText) => valueText
    case IdentifierWithTrailingTrivia(text, _) => text
    case IdentifierWithTrivia(_, _, valueText, _, _) => valueText
    case WithValue(_, value) => toInvariantString(value)
    case WithValueAndTrivia(_, value, _, _) => toInvariantString(value)
  }

  /**
   * The invariant every constructed or read token keeps: its full width is
   * its text plus its trivia, and it is present unless it is a missing token.
   */
  ghost predicate WellFormed<T>(t: Token<T>, kindText: KindText)
  {
    t.header.fullWidth == |Text(t, kindText)| + WidthOf(LeadingTrivia(t)) + WidthOf(TrailingTrivia(t))
    && (t.header.isNotMissing <==> !t.body.MissingWithTrivia?)
  }

  /**
   * The kind a constructor gives: the identifier constructors take no kind
   * and always pass IdentifierToken to the base token; the other variants
   * keep the kind they are given. A reader, in contrast, restores whatever
   * kind was written.
   */
  function RebuiltKind<T>(kind: SyntaxKind, body: Body<T>): SyntaxKind
  {
    if body.IsIdentifier() then IdentifierToken else kind
  }

  /** The width the base token constructor starts from: the token's own text. */
  function BaseWidth<T>(kind: SyntaxKind, body: Body<T>, kindText: KindText): nat
  {
    match body
    case WithTrivia(_, _) => |kindText(kind)|
    case MissingWithTrivia(_, _) => 0
    case _ => |body.text|
  }

  /**
   * The constructors of all eight variants: the base token constructor sets
   * the width to the text and marks the token present, each stored trivia
   * node is accounted for, and a missing token then clears its presence flag.
   */
  function Construct<T>(kindText: KindText, kind: SyntaxKind, body: Body<T>,
                        diagnostics: seq<DiagnosticId>, annotations: seq<AnnotationId>): (r: Token<T>)
    ensures WellFormed(r, kindText)
    ensures r.body == body
    ensures body.IsIdentifier() ==> r.header.kind == IdentifierToken
    ensures !body.IsIdentifier() ==> r.header.kind == kind
    ensures r.header.diagnostics == diagnostics && r.header.annotations == annotations
  {
    var h0 := Header(RebuiltKind(kind, body), BaseWidth(kind, body, kindText), true, diagnostics, annotations);
    var h1 := if body.HasLeadingField() then AdjustOptional(h0, body.leading) else h0;
    var h2 := if body.HasTrailingField() then AdjustOptional(h1, body.trailing) else h1;
    var h3 := if body.MissingWithTrivia? then h2.(isNotMissing := false) else h2;
    Token(h3, body)
  }

  /** SyntaxIdentifier, the identifier without trivia. */
  function NewIdentifier<T>(text: string, diagnostics: seq<DiagnosticId>, annotations: seq<AnnotationId>): (r: Token<T>)
    ensures forall kindText: KindText :: WellFormed(r, kindText)
    ensures r.header.fullWidth == |text| && r.header.kind == IdentifierToken
    ensures r.body == Identifier(text)
    ensures Value(r) == StringValue(text)
  {
    Construct(_ => "", IdentifierToken, Identifier(text), diagnostics, annotations)
  }

  /** Attaching leading trivia: the token keeps its kind, text, value and trailing trivia. */
  function WithLeadingTrivia<T>(t: Token<T>, trivia: Trivia, kindText: KindText): (r: Token<T>)
    requires WellFormed(t, kindText)
    ensures WellFormed(r, kindText)
    ensures LeadingTrivia(r) == trivia && TrailingTrivia(r) == TrailingTrivia(t)
    ensures r.header.kind == RebuiltKind(t.header.kind, t.body) && ContextualKind(r) == ContextualKind(t)
    ensures Text(r, kindText) == Text(t, kindText)
    ensures t.body.WithTrivia? <==> r.body.WithTrivia?
    ensures !t.body.WithTrivia? ==> Value(r) == Value(t)
    ensures r.header.diagnostics == t.header.diagnostics && r.header.annotations == t.header.annotations
    ensures r.header.fullWidth == t.header.fullWidth - WidthOf(LeadingTrivia(t)) + WidthOf(trivia)
    ensures r.body.IsIdentifier() <==> t.body.IsIdentifier()
    ensures t.body.IsIdentifier() ==> r.body.IdentifierWithTrivia?
    ensures (t.body.WithValue? || t.body.WithValueAndTrivia?) ==> r.body.WithValueAndTrivia?
    ensures t.body.MissingWithTrivia? <==> r.body.MissingWithTrivia?
  {
    var h := t.header;
    var b: Body<T> := match t.body
      case Identifier(text) => IdentifierWithTrivia(h.kind, text, text, trivia, None)
      case IdentifierExtended(ck, text, vt) => IdentifierWithTrivia(ck, text, vt, trivia, None)
      case IdentifierWithTrailingTrivia(text, trailing) => IdentifierWithTrivia(h.kind, text, text, trivia, trailing)
      case IdentifierWithTrivia(ck, text, vt, _, trailing) => IdentifierWithTrivia(ck, text, vt, trivia, trailing)
      case WithValue(text, value) => WithValueAndTrivia(text, value, trivia, None)
      case WithValueAndTrivia(text, value, _, trailing) => WithValueAndTrivia(text, value, trivia, trailing)
      case WithTrivia(_, trailing) => WithTrivia(trivia, trailing)
      case MissingWithTrivia(_, trailing) => MissingWithTrivia(trivia, trailing);
    Construct(kindText, h.kind, b, h.diagnostics, h.annotations)
  }

  /**
   * Attaching trailing trivia. The identifier that already has only trailing
   * trivia stays in its variant; every other identifier moves to the full
   * trivia variant.
   */
  function WithTrailingTrivia<T>(t: Token<T>, trivia: Trivia, kindText: KindText): (r: Token<T>)
    requires WellFormed(t, kindText)
    ensures WellFormed(r, kindText)
    ensures TrailingTrivia(r) == trivia && LeadingTrivia(r) == LeadingTrivia(t)
    ensures r.header.kind == RebuiltKind(t.header.kind, t.body)
    ensures !t.body.IdentifierWithTrailingTrivia? || t.header.kind == IdentifierToken ==> ContextualKind(r) == ContextualKind(t)
    ensures Text(r, kindText) == Text(t, kindText)
    ensures t.body.WithTrivia? <==> r.body.WithTrivia?
    ensures !t.body.WithTrivia? ==> Value(r) == Value(t)
    ensures r.header.diagnostics == t.header.diagnostics && r.header.annotations == t.header.annotations
    ensures r.header.fullWidth == t.header.fullWidth - WidthOf(TrailingTrivia(t)) + WidthOf(trivia)
    ensures r.body.IsIdentifier() <==> t.body.IsIdentifier()
    ensures t.body.IdentifierWithTrailingTrivia? <==> r.body.IdentifierWithTrailingTrivia?
    ensures t.body.IsIdentifier() && !t.body.IdentifierWithTrailingTrivia? ==> r.body.IdentifierWithTrivia?
    ensures (t.body.WithValue? || t.body.WithValueAndTrivia?) ==> r.body.WithValueAndTrivia?
    ensures t.body.MissingWithTrivia? <==> r.body.MissingWithTrivia?
  {
    var h := t.header;
    var b: Body<T> := match t.body
      case Identifier(text) => IdentifierWithTrivia(h.kind, text, text, None, trivia)
      case IdentifierExtended(ck, text, vt) => IdentifierWithTrivia(ck, text, vt, None, trivia)
      case IdentifierWithTrailingTrivia(text, _) => IdentifierWithTrailingTrivia(text, trivia)
      case IdentifierWithTrivia(ck, text, vt, leading, _) => IdentifierWithTrivia(ck, text, vt, leading, trivia)
      case WithValue(text, value) => WithValueAndTrivia(text, value, None, trivia)
      case WithValueAndTrivia(text, value, leading, _) => WithValueAndTrivia(text, value, leading, trivia)
      case WithTrivia(leading, _) => WithTrivia(leading, trivia)
      case MissingWithTrivia(leading, _) => MissingWithTrivia(leading, trivia);
    Construct(kindText, h.kind, b, h.diagnostics, h.annotations)
  }

  /**
   * SetDiagnostics: the same variant and fields with new diagnostics. The
   * identifier variants are rebuilt through constructors that take no kind,
   * so a token read with another kind comes back as IdentifierToken.
   */
  function SetDiagnostics<T>(t: Token<T>, diagnostics: seq<DiagnosticId>, kindText: KindText): (r: Token<T>)
    requires WellFormed(t, kindText)
    ensures WellFormed(r, kindText)
    ensures r == Token(t.header.(kind := RebuiltKind(t.header.kind, t.body), diagnostics := diagnostics), t.body)
  {
    Construct(kindText, t.header.kind, t.body, diagnostics, t.header.annotations)
  }

  /** SetAnnotations: the same variant and fields with new annotations. */
  function SetAnnotations<T>(t: Token<T>, annotations: seq<AnnotationId>, kindText: KindText): (r: Token<T>)
    requires WellFormed(t, kindText)
    ensures WellFormed(r, kindText)
    ensures r == Token(t.header.(kind := RebuiltKind(t.header.kind, t.body), annotations := annotations), t.body)
  {
    Construct(kindText, t.header.kind, t.body, t.header.diagnostics, annotations)
  }

  /** Adding trivia and then removing it again gives back a token equal to the original in every field but the variant. */
  lemma LeadingTriviaUndo<T>(t: Token<T>, trivia: Trivia, kindText: KindText)
    requires WellFormed(t, kindText)
    ensures var u := WithLeadingTrivia(WithLeadingTrivia(t, trivia, kindText), LeadingTrivia(t), kindText);
            u.header == t.header.(kind := RebuiltKind(t.header.kind, t.body)) && Text(u, kindText) == Text(t, kindText)
            && TrailingTrivia(u) == TrailingTrivia(t) && LeadingTrivia(u) == LeadingTrivia(t)
  {
  }

  // ---------------------------------------------------------------------
  // Serialization
  // ---------------------------------------------------------------------

  /** Which reader the object stream records for a token: one per variant class. */
  datatype Tag =
    | IdentifierTag | IdentifierExtendedTag | IdentifierWithTrailingTriviaTag | IdentifierWithTriviaTag
    | WithValueTag | WithValueAndTriviaTag | WithTriviaTag | MissingWithTriviaTag

  function TagOf<T>(t: Token<T>): Tag
  {
    match t.body
    case Identifier(_) => IdentifierTag
    case IdentifierExtended(_, _, _) => IdentifierExtendedTag
    case IdentifierWithTrailingTrivia(_, _) => IdentifierWithTrailingTriviaTag
    case IdentifierWithTrivia(_, _, _, _, _) => IdentifierWithTriviaTag
    case WithValue(_, _) => WithValueTag
    case WithValueAndTrivia(_, _, _, _) => WithValueAndTriviaTag
    case WithTrivia(_, _) => WithTriviaTag
    case MissingWithTrivia(_, _) => MissingWithTriviaTag
  }

  /**
   * WriteTo: the base fields, then each class appends its own fields after
   * its base class's, so a variant's fields extend those of the class it
   * derives from.
   */
  function WriteTo<T>(t: Token<T>): (r: seq<Field<T>>)
    ensures |r| >= 1 && r[0] == WriteHeader(t.header)
    ensures t.body.IsIdentifier() ==> |r| >= 2 && r[1] == StringField(t.body.text)
  {
    var base := [WriteHeader(t.header)];
    match t.body
    case Identifier(text) => base + [StringField(text)]
    case IdentifierExtended(ck, text, vt) => base + [StringField(text), Int16Field(ToInt16(ck)), StringField(vt)]
    case IdentifierWithTrailingTrivia(text, trailing) => base + [StringField(text), NodeField(trailing)]
    case IdentifierWithTrivia(ck, text, vt, leading, trailing) =>
      base + [StringField(text), Int16Field(ToInt16(ck)), StringField(vt), NodeField(leading), NodeField(trailing)]
    case WithValue(text, value) => base + [StringField(text), ValueField(value)]
    case WithValueAndTrivia(text, value, leading, trailing) =>
      base + [StringField(text), ValueField(value), NodeField(leading), NodeField(trailing)]
    case WithTrivia(leading, trailing) => base + [NodeField(leading), NodeField(trailing)]
    case MissingWithTrivia(leading, trailing) => base + [NodeField(leading), NodeField(trailing)]
  }

  /** How many fields each reader consumes. */
  function FieldCount(tag: Tag): nat
  {
    match tag
    case IdentifierTag => 2
    case IdentifierExtendedTag => 4
    case IdentifierWithTrailingTriviaTag => 3
    case IdentifierWithTriviaTag => 6
    case WithValueTag => 3
    case WithValueAndTriviaTag => 5
    case WithTriviaTag => 3
    case MissingWithTriviaTag => 3
  }

  /** Every field a reader consumes has the shape that reader expects. */
  predicate Shaped<T>(tag: Tag, f: seq<Field<T>>)
  {
    |f| == FieldCount(tag) && f[0].BaseFields?
    && match tag
       case IdentifierTag => f[1].StringField?
       case IdentifierExtendedTag =>
         f[1].StringField? && f[2].Int16Field? && -0x8000 <= f[2].v < 0x8000 && f[3].StringField?
       case IdentifierWithTrailingTriviaTag => f[1].StringField? && f[2].NodeField?
       case IdentifierWithTriviaTag =>
         f[1].StringField? && f[2].Int16Field? && -0x8000 <= f[2].v < 0x8000 && f[3].StringField?
         && f[4].NodeField? && f[5].NodeField?
       case WithValueTag => f[1].StringField? && f[2].ValueField?
       case WithValueAndTriviaTag => f[1].StringField? && f[2].ValueField? && f[3].NodeField? && f[4].NodeField?
       case WithTriviaTag => f[1].NodeField? && f[2].NodeField?
       case MissingWithTriviaTag => f[1].NodeField? && f[2].NodeField?
  }

  /**
   * The reader constructors. The base reader restores kind, diagnostics and
   * annotations and marks the token present; the text-carrying variants then
   * set the width to the text just read; each trivia node read is accounted
   * for; a missing token clears its presence flag.
   */
  function ReadFrom<T>(tag: Tag, f: seq<Field<T>>, kindText: KindText): (r: Option<Token<T>>)
    ensures r.Some? <==> Shaped(tag, f)
    ensures r.Some? ==> TagOf(r.value) == tag && WellFormed(r.value, kindText)
    ensures r.Some? ==> r.value.header.kind == f[0].kind
    ensures r.Some? ==> r.value.header.diagnostics == f[0].diagnostics && r.value.header.annotations == f[0].annotations
  {
    if !Shaped(tag, f) then None
    else
      var kind := f[0].kind;
      var base := Header(kind, 0, true, f[0].diagnostics, f[0].annotations);
      match tag
      case IdentifierTag =>
        Some(Token(base.(fullWidth := |f[1].s|), Identifier(f[1].s)))
      case IdentifierExtendedTag =>
        Some(Token(base.(fullWidth := |f[1].s|), IdentifierExtended(FromInt16(f[2].v), f[1].s, f[3].s)))
      case IdentifierWithTrailingTriviaTag =>
        var h := AdjustOptional(base.(fullWidth := |f[1].s|), f[2].node);
        Some(Token(h, IdentifierWithTrailingTrivia(f[1].s, f[2].node)))
      case IdentifierWithTriviaTag =>
        var h := AdjustOptional(AdjustOptional(base.(fullWidth := |f[1].s|), f[4].node), f[5].node);
        Some(Token(h, IdentifierWithTrivia(FromInt16(f[2].v), f[1].s, f[3].s, f[4].node, f[5].node)))
      case WithValueTag =>
        Some(Token(base.(fullWidth := |f[1].s|), WithValue(f[1].s, f[2].value)))
      case WithValueAndTriviaTag =>
        var h := AdjustOptional(AdjustOptional(base.(fullWidth := |f[1].s|), f[3].node), f[4].node);
        Some(Token(h, WithValueAndTrivia(f[1].s, f[2].value, f[3].node, f[4].node)))
      case WithTriviaTag =>
        var h := AdjustOptional(AdjustOptional(base.(fullWidth := |kindText(kind)|), f[1].node), f[2].node);
        Some(Token(h, WithTrivia(f[1].node, f[2].node)))
      case MissingWithTriviaTag =>
        var h := AdjustOptional(AdjustOptional(base, f[1].node), f[2].node);
        Some(Token(h.(isNotMissing := false), MissingWithTrivia(f[1].node, f[2].node)))
  }

  /** Reading back what a well-formed token writes, with its class's reader, gives the same token. */
  lemma {:induction false} RoundTrip<T>(t: Token<T>, kindText: KindText)
    requires WellFormed(t, kindText)
    ensures ReadFrom(TagOf(t), WriteTo(t), kindText) == Some(t)
  {
    match t.body
    case IdentifierExtended(ck, _, _) => Int16RoundTrip(ck);
    case IdentifierWithTrivia(ck, _, _, _, _) => Int16RoundTrip(ck);
    case _ =>
  }
}
