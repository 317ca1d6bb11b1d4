/**
 * The binder chain. A binder is a link that adds a small change (flags, a
 * containing member, a conditional receiver, constant fields in progress) on
 * top of the next binder; questions a link does not answer are passed down the
 * chain to the root, which answers every question with a fixed default.
 */
module Binder {
  import opened Wrappers
  import opened GreenNode

  /** The named binder flags; every other flag is the bit it occupies. */
  datatype BinderFlag = UnsafeRegion | CheckedRegion | UncheckedRegion | FieldInitializer | OtherFlag(bit: nat)

  /** A BinderFlags value: the set of flags whose bits are on. */
  type BinderFlags = set<BinderFlag>

  /** Symbols and bound expressions are carried by identity only. */
  type SymbolId = nat
  type ExpressionId = nat

  /** The constant field being evaluated, if any, and the fields it depends on. */
  datatype ConstantFieldsInProgress = ConstantFieldsInProgress(fieldOpt: Option<SymbolId>, dependencies: set<SymbolId>)

  const EmptyConstantFieldsInProgress := ConstantFieldsInProgress(None, {})

  /** The modifier kind `unsafe`; its numeric value is a placeholder. */
  const UnsafeKeyword: SyntaxKind := 8378

  datatype Binder =
    | BuckStopsHere(flags: BinderFlags)
    | Plain(next: Binder, flags: BinderFlags)
    | WithContainingMember(next: Binder, flags: BinderFlags, containing: SymbolId)
    | WithConditionalReceiver(next: Binder, flags: BinderFlags, receiver: ExpressionId)
    | WithConstantFieldsInProgress(next: Binder, flags: BinderFlags, inProgress: ConstantFieldsInProgress)

  /** Some link between `b` and the root overrides the containing member. */
  predicate HasContainingMemberLink(b: Binder)
  {
    match b
    case BuckStopsHere(_) => false
    case WithContainingMember(_, _, _) => true
    case _ => HasContainingMemberLink(b.next)
  }

  /** ContainingMemberOrLambda: the nearest link that stores one answers; the root answers null. */
  function ContainingMemberOrLambda(b: Binder): (r: Option<SymbolId>)
    ensures r.Some? <==> HasContainingMemberLink(b)
    ensures b.WithContainingMember? ==> r == Some(b.containing)
  {
    match b
    case BuckStopsHere(_) => None
    case WithContainingMember(_, _, s) => Some(s)
    case _ => ContainingMemberOrLambda(b.next)
  }

  /** ConditionalReceiverExpression: the nearest receiver link answers; the root answers null. */
  function ConditionalReceiverExpression(b: Binder): (r: Option<ExpressionId>)
    ensures b.BuckStopsHere? ==> r.None?
    ensures b.WithConditionalReceiver? ==> r == Some(b.receiver)
  {
    match b
    case BuckStopsHere(_) => None
    case WithConditionalReceiver(_, _, e) => Some(e)
    case _ => ConditionalReceiverExpression(b.next)
  }

  /** ConstantFieldsInProgress: the nearest such link answers; the root answers the empty value. */
  function ConstantFieldsInProgressOf(b: Binder): (r: ConstantFieldsInProgress)
    ensures b.BuckStopsHere? ==> r == EmptyConstantFieldsInProgress
    ensures b.WithConstantFieldsInProgress? ==> r == b.inProgress
  {
    match b
    case BuckStopsHere(_) => EmptyConstantFieldsInProgress
    case WithConstantFieldsInProgress(_, _, p) => p
    case _ => ConstantFieldsInProgressOf(b.next)
  }

  /** The questions only the root answers among the links modelled here. */
  datatype Query =
    | ImplicitlyTypedLocalsBeingBound | ImportChain | GetImports | LookupLocal | FieldsBeingBound
    | LocalInProgress | IsUnboundTypeAllowed | IsInMethodBody | IsDirectlyInIterator
    | IsIndirectlyInIterator | BreakLabel | ContinueLabel | GetBinder | LockedOrDisposedVariables
    | GetIteratorElementType | GetDeclaredLocalsForScope | BindSwitchExpressionAndSections
    | BindForParts | BindForEachParts | BindWhileParts | BindDoParts | BindUsingStatementParts
    | BindLockStatementParts | Locals | Labels

  /** How the root answers: null, an empty collection, false, or an unreachable-code failure. */
  datatype Answer = NullAnswer | EmptyAnswer | FalseAnswer | Unreachable

  /** The questions that need an enclosing method, loop, statement or scope binder. */
  predicate NeedsEnclosingBinder(q: Query)
  {
    q.GetIteratorElementType? || q.GetDeclaredLocalsForScope? || q.BindSwitchExpressionAndSections?
    || q.BindForParts? || q.BindForEachParts? || q.BindWhileParts? || q.BindDoParts?
    || q.BindUsingStatementParts? || q.BindLockStatementParts? || q.Locals? || q.Labels?
  }

  /** BuckStopsHereBinder's answers. */
  function RootAnswer(q: Query): (r: Answer)
    ensures r == Unreachable <==> NeedsEnclosingBinder(q)
  {
    match q
    case ImplicitlyTypedLocalsBeingBound => EmptyAnswer
    case ImportChain => NullAnswer
    case GetImports => EmptyAnswer
    case LookupLocal => NullAnswer
    case FieldsBeingBound => EmptyAnswer
    case LocalInProgress => NullAnswer
    case IsUnboundTypeAllowed => FalseAnswer
    case IsInMethodBody => FalseAnswer
    case IsDirectlyInIterator => FalseAnswer
    case IsIndirectlyInIterator => FalseAnswer
    case BreakLabel => NullAnswer
    case ContinueLabel => NullAnswer
    case GetBinder => NullAnswer
    case LockedOrDisposedVariables => EmptyAnswer
    case _ => Unreachable
  }

  /** Asking any binder of the chain: every link passes the question down to the root. */
  function Ask(b: Binder, q: Query): (r: Answer)
    ensures r == RootAnswer(q)
    ensures r == Unreachable <==> NeedsEnclosingBinder(q)
  {
    if b.BuckStopsHere? then RootAnswer(q) else Ask(b.next, q)
  }

  function WithFlags(b: Binder, flags: BinderFlags): (r: Binder)
    ensures r.flags == flags
    ensures r == b <==> b.flags == flags
    ensures r != b ==> r.Plain? && r.next == b
  {
    if b.flags == flags then b else Plain(b, flags)
  }

  function WithAdditionalFlags(b: Binder, flags: BinderFlags): (r: Binder)
    ensures r.flags == b.flags + flags
    ensures r == b <==> flags <= b.flags
    ensures r != b ==> r.Plain? && r.next == b
  {
    if flags <= b.flags then b else Plain(b, b.flags + flags)
  }

  /** Adding the same flags twice adds no second link. */
  lemma WithAdditionalFlagsIdempotent(b: Binder, flags: BinderFlags)
    ensures WithAdditionalFlags(WithAdditionalFlags(b, flags), flags) == WithAdditionalFlags(b, flags)
  {
  }

  function WithContainingMemberOrLambda(b: Binder, containing: SymbolId): (r: Binder)
    ensures r.WithContainingMember? && r.flags == b.flags && r.next == b
    ensures ContainingMemberOrLambda(r) == Some(containing)
    ensures ConditionalReceiverExpression(r) == ConditionalReceiverExpression(b)
    ensures ConstantFieldsInProgressOf(r) == ConstantFieldsInProgressOf(b)
  {
    WithContainingMember(b, b.flags, containing)
  }

  /** Both changes in one link rather than two. */
  function WithAdditionalFlagsAndContainingMemberOrLambda(b: Binder, flags: BinderFlags, containing: SymbolId): (r: Binder)
    ensures r.WithContainingMember? && r.flags == b.flags + flags && r.next == b
    ensures ContainingMemberOrLambda(r) == Some(containing)
    ensures ConditionalReceiverExpression(r) == ConditionalReceiverExpression(b)
  {
    WithContainingMember(b, b.flags + flags, containing)
  }

  function WithUnsafeRegionIfNecessary(b: Binder, modifiers: seq<SyntaxKind>): (r: Binder)
    ensures r == b <==> UnsafeRegion in b.flags || UnsafeKeyword !in modifiers
    ensures UnsafeRegion in r.flags <==> UnsafeRegion in b.flags || UnsafeKeyword in modifiers
    ensures r.flags - {UnsafeRegion} == b.flags - {UnsafeRegion}
    ensures r != b ==> r.Plain? && r.next == b
  {
    if UnsafeRegion in b.flags || UnsafeKeyword !in modifiers then b
    else Plain(b, b.flags + {UnsafeRegion})
  }

  /**
   * Entering a checked or unchecked region: afterwards exactly the requested
   * region flag is on, and no other flag changes.
   */
  function WithCheckedOrUncheckedRegion(b: Binder, checked: bool): (r: Binder)
    requires !(UncheckedRegion in b.flags && CheckedRegion in b.flags)
    ensures var added := if checked then CheckedRegion else UncheckedRegion;
            var removed := if checked then UncheckedRegion else CheckedRegion;
            added in r.flags && removed !in r.flags
            && (r == b <==> added in b.flags)
    ensures r.flags - {CheckedRegion, UncheckedRegion} == b.flags - {CheckedRegion, UncheckedRegion}
    ensures r != b ==> r.Plain? && r.next == b
  {
    var added := if checked then CheckedRegion else UncheckedRegion;
    var removed := if checked then UncheckedRegion else CheckedRegion;
    if added in b.flags then b else Plain(b, (b.flags - {removed}) + {added})
  }

  /** Nested regions: the innermost request wins. */
  lemma {:induction false} InnermostRegionWins(b: Binder, outer: bool, inner: bool)
    requires !(UncheckedRegion in b.flags && CheckedRegion in b.flags)
    ensures var o := WithCheckedOrUncheckedRegion(b, outer);
            !(UncheckedRegion in o.flags && CheckedRegion in o.flags)
            && var i := WithCheckedOrUncheckedRegion(o, inner);
               (CheckedRegion in i.flags <==> inner) && (UncheckedRegion in i.flags <==> !inner)
  {
    var o := WithCheckedOrUncheckedRegion(b, outer);
    assert (CheckedRegion in o.flags <==> outer) && (UncheckedRegion in o.flags <==> !outer);
  }

  /** BinderWithConditionalReceiver: inherits the next binder's flags. */
  function NewBinderWithConditionalReceiver(next: Binder, receiver: ExpressionId): (r: Binder)
    ensures r.WithConditionalReceiver? && r.flags == next.flags && r.next == next
    ensures ConditionalReceiverExpression(r) == Some(receiver)
    ensures ContainingMemberOrLambda(r) == ContainingMemberOrLambda(next)
  {
    WithConditionalReceiver(next, next.flags, receiver)
  }

  /** ConstantFieldsInProgressBinder: adds the field-initializer flag to the next binder's flags. */
  function NewConstantFieldsInProgressBinder(inProgress: ConstantFieldsInProgress, next: Binder): (r: Binder)
    ensures r.WithConstantFieldsInProgress? && r.flags == next.flags + {FieldInitializer} && r.next == next
    ensures ConstantFieldsInProgressOf(r) == inProgress
    ensures ContainingMemberOrLambda(r) == ContainingMemberOrLambda(next)
    ensures ConditionalReceiverExpression(r) == ConditionalReceiverExpression(next)
  {
    WithConstantFieldsInProgress(next, next.flags + {FieldInitializer}, inProgress)
  }

  /** Flag changes never hide the containing member, receiver or constant fields of the chain below. */
  lemma FlagLinksAreTransparent(b: Binder, flags: BinderFlags)
    ensures var r := WithAdditionalFlags(b, flags);
            ContainingMemberOrLambda(r) == ContainingMemberOrLambda(b)
            && ConditionalReceiverExpression(r) == ConditionalReceiverExpression(b)
            && ConstantFieldsInProgressOf(r) == ConstantFieldsInProgressOf(b)
  {
  }
}
