# Roslyn compiler core: a verified Dafny model

This project models a set of small, self-contained pieces of the Roslyn C#
compiler (the `Microsoft.CodeAnalysis` and `Microsoft.CodeAnalysis.CSharp`
assemblies) and proves properties of them.

- **Green syntax lists** (`GreenNode`, `GreenSyntaxList`).
  - `SyntaxList.WithLotsOfChildren` keeps a prefix-sum table of its children's offsets. It finds the slot containing an offset with an upper-bound binary search.
  - `SyntaxList.WithTwoChildren` is the two-slot form. Its width is accumulated child by child.
  - Both serialize to object-stream fields and read themselves back.
- **Red syntax lists** (`RedSyntaxList`). `WithManyChildren`, `SeparatedWithManyChildren` and `WithThreeChildren` materialize red nodes lazily into a per-slot cache. The separated list caches only element slots, at `i / 2`.
- **Green tokens** (`SyntaxToken`).
  - The eight token variants are: identifier, extended identifier, identifier with trailing trivia, identifier with trivia, value token, value token with trivia, token with trivia, and missing token.
  - The model covers their widths and their Text, Value and ValueText.
  - It covers the moves between variants made by `WithLeadingTrivia`, `WithTrailingTrivia`, `SetDiagnostics` and `SetAnnotations`.
  - It covers each variant's serialization field order.
- **Syntax diagnostics** (`SyntaxDiagnosticInfo`): offset and width, `WithOffset`, and serialization.
- **The binder chain** (`Binder`).
  - The flag algebra of `Binder_Flags.cs`: `WithFlags`, `WithAdditionalFlags`, the unsafe region, and the checked/unchecked swap.
  - The containing-member and conditional-receiver links.
  - `ConstantFieldsInProgressBinder`, and the terminal `BuckStopsHereBinder`.
- **Synthesized symbols.**
  - Anonymous-type member layout: 3n+1 members for the template and 2n+1 for the public symbol (`AnonymousTypes`).
  - The template's debugger display string.
  - Synthesized container type parameters `T1..Tn` and `TResult` (`SynthesizedContainer`).
  - Reduced extension methods (`ReducedExtensionMethod`).
  - Intrinsic operators (`IntrinsicOperator`).
  - The `this` parameter and cloned source parameters (`Parameters`).
  - Constructed named types (`ConstructedNamedType`).
  - Synthesized locals (`SynthesizedLocal`).
- **Core utilities.**
  - Strong-name keys (`StrongNameKeys`).
  - Byte-sequence equality (`ByteSequenceComparer`).
  - `RefKind` and `OptimizationLevel`.
  - The module compilation state's freeze protocol (`ModuleCompilationState`).
  - Sealed well-known module attribute data (`ModuleAttributeData`).
  - `LabelInfo` and `LocalDefinition` from code generation.
  - The syntax-tree `State` of `SyntaxAndDeclarationManager` (`LazyState`).

The model keeps the source's form:

- Immutable values (green tokens, binders, labels, diagnostics, parameters) are datatypes with functions.
- Objects whose fields change are classes with `modifies` clauses: the red-list caches, the template symbol's name and location, the reduced method's lazy parameters, the compilation state and the attribute data.
- Loops in the source are methods with loop invariants, proved against a specification function. Examples are the offset table, the binary search, the member-array construction, the display-string builder, the hex-key validator and the byte comparers.

Support modules: `Wrappers` (Option and Result) and `Strings` (decimal rendering of integers).

Where the prose description of the system and the code disagree, the code is followed.

- **FindSlotIndexContainingOffset.** With child widths `[3, 0, 7, 2, 5]` and offset 3, the description says the zero-width slot 1 is returned. The code takes the upper bound minus one, which returns slot 2. The model returns slot 2 (`GreenSyntaxList.FindSlotExample`) and proves that the slot it returns never has zero width.

## Model

| member | source | states |
|---|---|---|
| GreenNode.AdjustFlagsAndWidth | src/Compilers/CSharp/Portable/Syntax/InternalSyntax/SyntaxList.WithTwoChildren.cs:18-21 | adding a child adds its full width to the node's width and ORs in its not-missing flag; kind, diagnostics and annotations are kept |
| GreenNode.AdjustOptional | src/Compilers/CSharp/Portable/Syntax/InternalSyntax/SyntaxToken.SyntaxTokenWithTrivia.cs:18-27 | a trivia side adds its width only when it is present; an absent side leaves the header unchanged |
| GreenNode.Offsets | src/Compilers/CSharp/Portable/Syntax/InternalSyntax/SyntaxList.WithLotsOfChildren.cs:58-69 | the offset table has one entry per child, and entry i is the sum of the widths of the children before i |
| GreenNode.OffsetStep | src/Compilers/CSharp/Portable/Syntax/InternalSyntax/SyntaxList.WithLotsOfChildren.cs:62-67 | entry i+1 is entry i plus the full width of child i |
| GreenNode.OffsetMonotone | src/Compilers/CSharp/Portable/Syntax/InternalSyntax/SyntaxList.WithLotsOfChildren.cs:62-67 | offsets never decrease along the children |
| GreenNode.OffsetOfEnd | src/Compilers/CSharp/Portable/Syntax/InternalSyntax/SyntaxList.WithLotsOfChildren.cs:58-69 | the offset after the last child is the sum of all widths, so every offset is at most the list's full width |
| GreenNode.WriteHeader | src/Compilers/CSharp/Portable/Syntax/InternalSyntax/SyntaxToken.SyntaxIdentifier.cs:33-37 | the base fields written first carry the node's kind |
| GreenNode.ToInt16 | src/Compilers/CSharp/Portable/Syntax/InternalSyntax/SyntaxToken.SyntaxIdentifierExtended.cs:44 | the contextual kind is written as a 16-bit signed value congruent to the kind modulo 2^16 |
| GreenNode.FromInt16 | src/Compilers/CSharp/Portable/Syntax/InternalSyntax/SyntaxToken.SyntaxIdentifierExtended.cs:32 | a 16-bit value read back is cast to the kind congruent to it modulo 2^16 |
| GreenNode.Int16RoundTrip | src/Compilers/CSharp/Portable/Syntax/InternalSyntax/SyntaxToken.SyntaxIdentifierExtended.cs:29-46 | writing a kind as int16 and reading it back gives the same kind |
| GreenSyntaxList.AdjustAll | src/Compilers/CSharp/Portable/Syntax/InternalSyntax/SyntaxList.WithLotsOfChildren.cs:15-19 | adjusting by every child adds the sum of the children's widths |
| GreenSyntaxList.OffsetsSorted | src/Compilers/CSharp/Portable/Syntax/InternalSyntax/SyntaxList.WithLotsOfChildren.cs:58-69 | the offset table is sorted, which the binary search needs |
| GreenSyntaxList.BinarySearchUpperBound | src/Compilers/CSharp/Portable/Syntax/InternalSyntax/SyntaxList.WithLotsOfChildren.cs:55 | on a sorted array, returns the first index whose value exceeds the target: everything before it is at most the target, everything from it on exceeds it |
| GreenSyntaxList.SlotContainsUnique | src/Compilers/CSharp/Portable/Syntax/InternalSyntax/SyntaxList.WithLotsOfChildren.cs:52-56 | at most one slot contains a given offset in the sense the search answers, so the answer is determined |
| GreenSyntaxList.FindSlotExample | src/Compilers/CSharp/Portable/Syntax/InternalSyntax/SyntaxList.WithLotsOfChildren.cs:52-56 | with widths [3,0,7,2,5] and offset 3 the answer is slot 2, not the zero-width slot 1 |
| GreenSyntaxList.WithLotsOfChildren.constructor | src/Compilers/CSharp/Portable/Syntax/InternalSyntax/SyntaxList.WithLotsOfChildren.cs:15-19 | the list holds the children, its full width is their total width, and its offset table is the prefix-sum table |
| GreenSyntaxList.WithLotsOfChildren.FromReader | src/Compilers/CSharp/Portable/Syntax/InternalSyntax/SyntaxList.WithLotsOfChildren.cs:21-25 | reading restores the children and the written kind, diagnostics and annotations, and recomputes the width and the offset table |
| GreenSyntaxList.WithLotsOfChildren.WriteTo | src/Compilers/CSharp/Portable/Syntax/InternalSyntax/SyntaxList.WithLotsOfChildren.cs:27-31 | writing emits the base fields and then the children; the offsets are not written |
| GreenSyntaxList.WithLotsOfChildren.CalculateOffsets | src/Compilers/CSharp/Portable/Syntax/InternalSyntax/SyntaxList.WithLotsOfChildren.cs:58-69 | the running-offset loop fills a fresh array equal to the prefix-sum table |
| GreenSyntaxList.WithLotsOfChildren.GetSlotOffset | src/Compilers/CSharp/Portable/Syntax/InternalSyntax/SyntaxList.WithLotsOfChildren.cs:38-41 | the offset of slot i is the sum of the widths before it |
| GreenSyntaxList.WithLotsOfChildren.FindSlotIndexContainingOffset | src/Compilers/CSharp/Portable/Syntax/InternalSyntax/SyntaxList.WithLotsOfChildren.cs:52-56 | for 0 <= offset < FullWidth, returns the slot that starts at or before the offset and ends after it, such that no later slot starts at or before it; that slot is never zero-width |
| GreenSyntaxList.ReadAfterWrite | src/Compilers/CSharp/Portable/Syntax/InternalSyntax/SyntaxList.WithLotsOfChildren.cs:21-31 | reading back what was written gives the same children, the same offset table, the same width, and the same kind, diagnostics and annotations |
| GreenSyntaxList.WithTwoChildren.GetSlot | src/Compilers/CSharp/Portable/Syntax/InternalSyntax/SyntaxList.WithTwoChildren.cs:46-57 | slot 0 is child0, slot 1 is child1, every other index is null |
| GreenSyntaxList.WithTwoChildren.WriteTo | src/Compilers/CSharp/Portable/Syntax/InternalSyntax/SyntaxList.WithTwoChildren.cs:34-39 | the base fields, then child0, then child1 |
| GreenSyntaxList.NewWithTwoChildren | src/Compilers/CSharp/Portable/Syntax/InternalSyntax/SyntaxList.WithTwoChildren.cs:15-22 | the two slots are the children, the full width is their total width, and the list is not missing iff a child is not missing |
| GreenSyntaxList.SumWidthsTwo | src/Compilers/CSharp/Portable/Syntax/InternalSyntax/SyntaxList.WithTwoChildren.cs:18-21 | the width of a two-child list is child0's width plus child1's width |
| GreenSyntaxList.ReadWithTwoChildren | src/Compilers/CSharp/Portable/Syntax/InternalSyntax/SyntaxList.WithTwoChildren.cs:24-32 | reading succeeds exactly on base fields followed by two non-null nodes, keeps the written kind, diagnostics and annotations, and recomputes the width from the children |
| GreenSyntaxList.TwoChildrenRoundTrip | src/Compilers/CSharp/Portable/Syntax/InternalSyntax/SyntaxList.WithTwoChildren.cs:24-39 | reading back what was written restores both children in order, the kind, the diagnostics, the annotations and the width |
| GreenSyntaxList.CopyTo | src/Compilers/CSharp/Portable/Syntax/InternalSyntax/SyntaxList.WithTwoChildren.cs:59-63 | child0 goes to array[offset], child1 to array[offset+1], and no other cell changes |
| RedSyntaxList.WithManyChildren.constructor | src/Compilers/CSharp/Portable/Syntax/SyntaxList.WithManyChildren.cs:13-17 | the cache has one empty entry per green slot |
| RedSyntaxList.WithManyChildren.GetCachedSlot | src/Compilers/CSharp/Portable/Syntax/SyntaxList.WithManyChildren.cs:24-27 | returns the cache entry without materializing; a present entry is the red node of that green slot |
| RedSyntaxList.WithManyChildren.GetNodeSlot | src/Compilers/CSharp/Portable/Syntax/SyntaxList.WithManyChildren.cs:19-22 | returns the cached node if there is one, else materializes a fresh node for that slot at the slot's position and caches it; no other entry changes |
| RedSyntaxList.SeparatedWithManyChildren.constructor | src/Compilers/CSharp/Portable/Syntax/SyntaxList.SeparatedWithManyChildren.cs:13-17 | the cache has (SlotCount+1)/2 empty entries, one per element slot |
| RedSyntaxList.SeparatedWithManyChildren.GetCachedSlot | src/Compilers/CSharp/Portable/Syntax/SyntaxList.SeparatedWithManyChildren.cs:30-39 | any odd (separator) index, in range or not, is null; an even slot i, which must be a slot, reads cache entry i/2 |
| RedSyntaxList.SeparatedWithManyChildren.GetNodeSlot | src/Compilers/CSharp/Portable/Syntax/SyntaxList.SeparatedWithManyChildren.cs:19-28 | any odd index yields null and changes nothing; an even slot i is materialized from green slot i into cache entry i/2, or the cached node is returned; no other entry changes |
| RedSyntaxList.WithThreeChildren.constructor | src/Compilers/CSharp/Portable/Syntax/SyntaxList.WithThreeChildren.cs:18-21 | all three fields start empty |
| RedSyntaxList.WithThreeChildren.GetCachedSlot | src/Compilers/CSharp/Portable/Syntax/SyntaxList.WithThreeChildren.cs:38-51 | slots 0..2 read their own field; every other index is null |
| RedSyntaxList.WithThreeChildren.GetNodeSlot | src/Compilers/CSharp/Portable/Syntax/SyntaxList.WithThreeChildren.cs:23-36 | slots 0 and 2 are always materialized; slot 1 only when its green node is not a token; other indexes are null; a cached node is returned again; only the slot's own field changes |
| RedSyntaxList.RedNode.constructor | src/Compilers/CSharp/Portable/Syntax/SyntaxList.WithManyChildren.cs:21 | a red node records its green node, its parent and its absolute position |
| RedSyntaxList.GetNodeSlotTwice | src/Compilers/CSharp/Portable/Syntax/SyntaxList.WithManyChildren.cs:19-27 | two calls for the same slot return the same node, and it is then the cached one |
| SyntaxToken.Text | src/Compilers/CSharp/Portable/Syntax/InternalSyntax/SyntaxToken.MissingTokenWithTrivia.cs:35-38 | a missing token's text is empty |
| SyntaxToken.LeadingTrivia | src/Compilers/CSharp/Portable/Syntax/InternalSyntax/SyntaxToken.SyntaxTokenWithTrivia.cs:74-77 | variants without a leading field have no leading trivia |
| SyntaxToken.TrailingTrivia | src/Compilers/CSharp/Portable/Syntax/InternalSyntax/SyntaxToken.SyntaxIdentifierWithTrailingTrivia.cs:56-59 | variants without a trailing field have no trailing trivia |
| SyntaxToken.ContextualKind | src/Compilers/CSharp/Portable/Syntax/InternalSyntax/SyntaxToken.SyntaxIdentifierExtended.cs:48-51 | only the extended identifiers carry a contextual kind of their own; every other token answers its kind |
| SyntaxToken.Value | src/Compilers/CSharp/Portable/Syntax/InternalSyntax/SyntaxToken.MissingTokenWithTrivia.cs:40-52 | identifiers have a string value; a missing token's value is "" for the identifier kind and null for every other kind |
| SyntaxToken.ValueText | src/Compilers/CSharp/Portable/Syntax/InternalSyntax/SyntaxToken.SyntaxLiteral.cs:66-72 | an identifier's value text is its value (its text, or the stored value text for the extended forms); a value token's is the invariant-culture rendering of its value |
| SyntaxToken.Construct | src/Compilers/CSharp/Portable/Syntax/InternalSyntax/SyntaxToken.SyntaxTokenWithTrivia.cs:15-43 | a constructed token is well formed: its width is its text width plus each present trivia side, and only the missing variant is missing; an identifier variant always gets kind IdentifierToken, any other variant the kind given |
| SyntaxToken.NewIdentifier | src/Compilers/CSharp/Portable/Syntax/InternalSyntax/SyntaxToken.SyntaxIdentifier.cs:14-24 | an identifier token has kind IdentifierToken, width = text length, and its text as value |
| SyntaxToken.WithLeadingTrivia | src/Compilers/CSharp/Portable/Syntax/InternalSyntax/SyntaxToken.SyntaxIdentifier.cs:59-62 | replaces only the leading side; keeps the contextual kind, text, value, trailing trivia, diagnostics and annotations, and the kind except that a rebuilt identifier gets IdentifierToken; adjusts the width by the trivia difference; identifiers become the both-sides identifier, value tokens the value-with-trivia token, missing tokens stay missing |
| SyntaxToken.WithTrailingTrivia | src/Compilers/CSharp/Portable/Syntax/InternalSyntax/SyntaxToken.SyntaxIdentifier.cs:64-67 | replaces only the trailing side and keeps everything else, the kind except that a rebuilt identifier gets IdentifierToken; a plain or extended identifier goes to the both-sides identifier, keeping its contextual kind, while the trailing-only identifier stays trailing-only |
| SyntaxToken.SetDiagnostics | src/Compilers/CSharp/Portable/Syntax/InternalSyntax/SyntaxToken.SyntaxIdentifier.cs:69-72 | keeps the variant and every field except the diagnostics, which are replaced, and the kind, which a rebuilt identifier sets to IdentifierToken |
| SyntaxToken.SetAnnotations | src/Compilers/CSharp/Portable/Syntax/InternalSyntax/SyntaxToken.SyntaxIdentifier.cs:74-77 | keeps the variant and every field except the annotations, which are replaced, and the kind, which a rebuilt identifier sets to IdentifierToken |
| SyntaxToken.LeadingTriviaUndo | src/Compilers/CSharp/Portable/Syntax/InternalSyntax/SyntaxToken.SyntaxIdentifierWithTrivia.cs:96-99 | putting back the old leading trivia restores the text, the width, both trivia sides and the header, except that a rebuilt identifier has kind IdentifierToken |
| SyntaxToken.WriteTo | src/Compilers/CSharp/Portable/Syntax/InternalSyntax/SyntaxToken.SyntaxIdentifierExtended.cs:41-46 | base fields first; identifiers then write their text |
| SyntaxToken.ReadFrom | src/Compilers/CSharp/Portable/Syntax/InternalSyntax/SyntaxToken.SyntaxIdentifierWithTrivia.cs:57-72 | reading succeeds exactly on the field shape of the variant, and yields a well-formed token of that variant with the width recomputed and the written kind, diagnostics and annotations |
| SyntaxToken.RoundTrip | src/Compilers/CSharp/Portable/Syntax/InternalSyntax/SyntaxToken.SyntaxLiteralWithTrivia.cs:52-79 | for every variant, reading back what was written gives the same token, including missing-ness and width |
| SyntaxDiagnosticInfo.New | src/Compilers/CSharp/Portable/Errors/SyntaxDiagnosticInfo.cs:14-20 | requires a non-negative width and stores offset, width, code and arguments |
| SyntaxDiagnosticInfo.NewWithoutArguments | src/Compilers/CSharp/Portable/Errors/SyntaxDiagnosticInfo.cs:22-25 | the overload without arguments uses the empty argument list |
| SyntaxDiagnosticInfo.NewAtNodeStart | src/Compilers/CSharp/Portable/Errors/SyntaxDiagnosticInfo.cs:27-35 | the code-only overloads give offset 0 and width 0 |
| SyntaxDiagnosticInfo.WithOffset | src/Compilers/CSharp/Portable/Errors/SyntaxDiagnosticInfo.cs:37-40 | only the offset changes; width, code and arguments are kept |
| SyntaxDiagnosticInfo.WithOffsetLaws | src/Compilers/CSharp/Portable/Errors/SyntaxDiagnosticInfo.cs:37-40 | the last offset wins, and moving to the current offset changes nothing |
| SyntaxDiagnosticInfo.WriteTo | src/Compilers/CSharp/Portable/Errors/SyntaxDiagnosticInfo.cs:44-49 | the base fields, then the offset, then the width, as 32-bit integers |
| SyntaxDiagnosticInfo.ReadFrom | src/Compilers/CSharp/Portable/Errors/SyntaxDiagnosticInfo.cs:56-61 | reads the offset then the width after the base fields, and fails on any other shape |
| SyntaxDiagnosticInfo.RoundTrip | src/Compilers/CSharp/Portable/Errors/SyntaxDiagnosticInfo.cs:44-61 | write-then-read gives the same diagnostic, and read-then-write gives the same fields |
| Binder.ContainingMemberOrLambda | src/Compilers/CSharp/Portable/Binder/Binder_Flags.cs:34-37 | the chain answers a symbol iff some link stores one, and the nearest such link answers; the root answers null |
| Binder.ConditionalReceiverExpression | src/Compilers/CSharp/Portable/Binder/Binder_Flags.cs:56-59 | a receiver link answers its receiver; the root answers null |
| Binder.ConstantFieldsInProgressOf | src/Compilers/CSharp/Portable/Binder/ConstantFieldsInProgressBinder.cs:20-26 | a constant-fields link answers exactly what it was given; the root answers the empty value |
| Binder.RootAnswer | src/Compilers/CSharp/Portable/Binder/BuckStopsHereBinder.cs:22-215 | the terminal binder answers null, empty or false, and fails as unreachable exactly for the questions that need an enclosing method, loop, statement or scope binder |
| Binder.Ask | src/Compilers/CSharp/Portable/Binder/BuckStopsHereBinder.cs:15-20 | every binder in the chain passes these questions down to the terminal binder and gets its answer |
| Binder.WithFlags | src/Compilers/CSharp/Portable/Binder/Binder_Flags.cs:62-67 | returns the same binder iff its flags are already exactly the requested ones; otherwise a new link whose flags are replaced, not unioned |
| Binder.WithAdditionalFlags | src/Compilers/CSharp/Portable/Binder/Binder_Flags.cs:69-74 | returns the same binder iff the flags are already included; otherwise a new link with the union |
| Binder.WithAdditionalFlagsIdempotent | src/Compilers/CSharp/Portable/Binder/Binder_Flags.cs:69-74 | adding the same flags twice adds only one link |
| Binder.WithContainingMemberOrLambda | src/Compilers/CSharp/Portable/Binder/Binder_Flags.cs:76-80 | always adds a link with the same flags that answers the new symbol, and passes the other questions down |
| Binder.WithAdditionalFlagsAndContainingMemberOrLambda | src/Compilers/CSharp/Portable/Binder/Binder_Flags.cs:86-90 | one link carrying both the union of the flags and the symbol |
| Binder.WithUnsafeRegionIfNecessary | src/Compilers/CSharp/Portable/Binder/Binder_Flags.cs:92-97 | unchanged iff UnsafeRegion is already set or no modifier is `unsafe`; otherwise exactly UnsafeRegion is added |
| Binder.WithCheckedOrUncheckedRegion | src/Compilers/CSharp/Portable/Binder/Binder_Flags.cs:99-109 | requires that not both region flags are set; afterwards exactly the requested region flag is set and the opposite one is clear; no other flag changes; unchanged iff the requested flag was already set |
| Binder.InnermostRegionWins | src/Compilers/CSharp/Portable/Binder/Binder_Flags.cs:99-109 | nesting two region requests keeps the precondition and the inner request decides |
| Binder.NewBinderWithConditionalReceiver | src/Compilers/CSharp/Portable/Binder/Binder_Flags.cs:44-59 | the link keeps the next binder's flags, answers the receiver, and passes the containing member down |
| Binder.NewConstantFieldsInProgressBinder | src/Compilers/CSharp/Portable/Binder/ConstantFieldsInProgressBinder.cs:14-18 | the flags are the next binder's flags plus FieldInitializer, with nothing else added; the in-progress value is the one passed in; the other answers pass down |
| Binder.FlagLinksAreTransparent | src/Compilers/CSharp/Portable/Binder/Binder_Flags.cs:69-74 | a flag link hides neither the containing member, nor the receiver, nor the constant fields of the chain below |
| AnonymousTypes.Member.Kind | src/Compilers/CSharp/Portable/Symbols/AnonymousTypes/SynthesizedSymbols/AnonymousType.TemplateSymbol.cs:202-213 | exactly the backing fields are field symbols |
| AnonymousTypes.Member.MethodKindOf | src/Compilers/CSharp/Portable/Symbols/AnonymousTypes/SynthesizedSymbols/AnonymousType.ConstructorSymbol.cs:46-49 | a method member is a constructor exactly when it is the constructor member |
| AnonymousTypes.Member.ReturnsVoid | src/Compilers/CSharp/Portable/Symbols/AnonymousTypes/SynthesizedSymbols/AnonymousType.ConstructorSymbol.cs:51-54 | the constructor returns void, and the getters do not |
| AnonymousTypes.TemplateProperties | src/Compilers/CSharp/Portable/Symbols/AnonymousTypes/SynthesizedSymbols/AnonymousType.TemplateSymbol.cs:82-106 | one property per descriptor field |
| AnonymousTypes.ConstructorParameters | src/Compilers/CSharp/Portable/Symbols/AnonymousTypes/SynthesizedSymbols/AnonymousType.ConstructorSymbol.cs:25-44 | one constructor parameter per property |
| AnonymousTypes.TemplateFieldLayout | src/Compilers/CSharp/Portable/Symbols/AnonymousTypes/SynthesizedSymbols/AnonymousType.TemplateSymbol.cs:86-104 | the field loop yields 3 members per field: at 3i the property, at 3i+1 its backing field and at 3i+2 its getter, all of field i |
| AnonymousTypes.TemplateLayout | src/Compilers/CSharp/Portable/Symbols/AnonymousTypes/SynthesizedSymbols/AnonymousType.TemplateSymbol.cs:72-118 | the template has 3n+1 members, each of the first 3n belongs to property i/3, and the last is the constructor |
| AnonymousTypes.PublicProperties | src/Compilers/CSharp/Portable/Symbols/AnonymousTypes/PublicSymbols/AnonymousType.TypePublicSymbol.cs:56-77 | one property per descriptor field |
| AnonymousTypes.PublicFieldLayout | src/Compilers/CSharp/Portable/Symbols/AnonymousTypes/PublicSymbols/AnonymousType.TypePublicSymbol.cs:61-70 | the field loop yields 2 members per field: at 2i the property and at 2i+1 its getter, none of them a field symbol |
| AnonymousTypes.FieldsOf | src/Compilers/CSharp/Portable/Symbols/AnonymousTypes/SynthesizedSymbols/AnonymousType.TemplateSymbol.cs:202-213 | the selected members are members of the list and are field symbols |
| AnonymousTypes.FieldsOfAppend | src/Compilers/CSharp/Portable/Symbols/AnonymousTypes/SynthesizedSymbols/AnonymousType.TemplateSymbol.cs:202-213 | selecting the fields of two lists one after the other is selecting the fields of their concatenation, keeping member order |
| AnonymousTypes.FieldsOfTriple | src/Compilers/CSharp/Portable/Symbols/AnonymousTypes/SynthesizedSymbols/AnonymousType.TemplateSymbol.cs:100-102 | of a property, its backing field and its getter, only the backing field is emitted |
| AnonymousTypes.TemplateBackingFields | src/Compilers/CSharp/Portable/Symbols/AnonymousTypes/SynthesizedSymbols/AnonymousType.TemplateSymbol.cs:101 | one backing field per processed field |
| AnonymousTypes.TemplateBackingFieldsAt | src/Compilers/CSharp/Portable/Symbols/AnonymousTypes/SynthesizedSymbols/AnonymousType.TemplateSymbol.cs:101 | the i-th backing field belongs to property i |
| AnonymousTypes.TemplateFieldsToEmit | src/Compilers/CSharp/Portable/Symbols/AnonymousTypes/SynthesizedSymbols/AnonymousType.TemplateSymbol.cs:202-213 | the fields emitted from the template's field members are exactly the backing fields, in field order |
| AnonymousTypes.FillNameToSymbols | src/Compilers/CSharp/Portable/Symbols/AnonymousTypes/SynthesizedSymbols/AnonymousType.TemplateSymbol.cs:120-124 | looking a name up in the filled dictionary gives exactly the members with that name, and a name is a key iff some member has it |
| AnonymousTypes.MakeConstructorParameters | src/Compilers/CSharp/Portable/Symbols/AnonymousTypes/SynthesizedSymbols/AnonymousType.ConstructorSymbol.cs:25-44 | parameter i has property i's type and name, ordinal i and RefKind None; no properties give no parameters |
| AnonymousTypes.BuildTemplateMembers | src/Compilers/CSharp/Portable/Symbols/AnonymousTypes/SynthesizedSymbols/AnonymousType.TemplateSymbol.cs:72-118 | the array loop produces one type parameter per field with ordinal i, the properties in field order, and the 3n+1 member layout |
| AnonymousTypes.ProcessTemplateFields | src/Compilers/CSharp/Portable/Symbols/AnonymousTypes/SynthesizedSymbols/AnonymousType.TemplateSymbol.cs:86-104 | the field loop fills the first 3n array cells with the template's field members, and yields the type parameters and the properties in field order |
| AnonymousTypes.AppendPropertyMembers | src/Compilers/CSharp/Portable/Symbols/AnonymousTypes/SynthesizedSymbols/AnonymousType.TemplateSymbol.cs:100-102 | the three assignments of one field append its property, backing field and getter to the filled prefix |
| AnonymousTypes.AppendMember | src/Compilers/CSharp/Portable/Symbols/AnonymousTypes/SynthesizedSymbols/AnonymousType.TemplateSymbol.cs:100 | `members[memberIndex++] = m` extends the filled prefix by m and leaves the rest of the array alone |
| AnonymousTypes.BuildPublicMembers | src/Compilers/CSharp/Portable/Symbols/AnonymousTypes/PublicSymbols/AnonymousType.TypePublicSymbol.cs:48-82 | the array loop produces the properties in field order and the 2n+1 member layout |
| AnonymousTypes.ProcessPublicFields | src/Compilers/CSharp/Portable/Symbols/AnonymousTypes/PublicSymbols/AnonymousType.TypePublicSymbol.cs:61-70 | the field loop fills the first 2n array cells with the public field members and yields the properties in field order |
| AnonymousTypes.AnonymousTypeTemplateSymbol.constructor | src/Compilers/CSharp/Portable/Symbols/AnonymousTypes/SynthesizedSymbols/AnonymousType.TemplateSymbol.cs:61-132 | stores the descriptor key and location, leaves the name unset, and builds members, type parameters, the name dictionary and the three special members Equals, GetHashCode and ToString |
| AnonymousTypes.AnonymousTypeTemplateSymbol.GetMembers | src/Compilers/CSharp/Portable/Symbols/AnonymousTypes/SynthesizedSymbols/AnonymousType.TemplateSymbol.cs:197-200 | 3n+1 members, the last one the constructor, each earlier one belonging to property i/3 |
| AnonymousTypes.AnonymousTypeTemplateSymbol.GetMembersNamed | src/Compilers/CSharp/Portable/Symbols/AnonymousTypes/SynthesizedSymbols/AnonymousType.TemplateSymbol.cs:236-246 | exactly the members with that name |
| AnonymousTypes.AnonymousTypeTemplateSymbol.Arity | src/Compilers/CSharp/Portable/Symbols/AnonymousTypes/SynthesizedSymbols/AnonymousType.TemplateSymbol.cs:283-286 | the arity is the field count |
| AnonymousTypes.AnonymousTypeTemplateSymbol.MangleName | src/Compilers/CSharp/Portable/Symbols/AnonymousTypes/SynthesizedSymbols/AnonymousType.TemplateSymbol.cs:278-281 | the name is mangled iff there is at least one field |
| AnonymousTypes.AnonymousTypeTemplateSymbol.GetFieldsToEmit | src/Compilers/CSharp/Portable/Symbols/AnonymousTypes/SynthesizedSymbols/AnonymousType.TemplateSymbol.cs:202-213 | the filtering loop yields the field members in member order, which are exactly the n backing fields in property order |
| AnonymousTypes.AnonymousTypeTemplateSymbol.SetNameAndIndex | src/Compilers/CSharp/Portable/Symbols/AnonymousTypes/SynthesizedSymbols/AnonymousType.TemplateSymbol.cs:161-166 | set once: a later set must carry the same value; afterwards `Name` (:268-271) reads the assigned name and the smallest location is untouched |
| AnonymousTypes.AnonymousTypeTemplateSymbol.AdjustLocation | src/Compilers/CSharp/Portable/Symbols/AnonymousTypes/SynthesizedSymbols/AnonymousType.TemplateSymbol.cs:173-195 | the current location is kept if it is strictly smaller than the new one, else the new one is stored; afterwards `SmallestLocation` (:146-153) is defined, never later than before and never later than the new location |
| AnonymousTypes.AnonymousTypePublicSymbol.constructor | src/Compilers/CSharp/Portable/Symbols/AnonymousTypes/PublicSymbols/AnonymousType.TypePublicSymbol.cs:41-89 | stores the descriptor and builds properties, members and the name dictionary |
| AnonymousTypes.AnonymousTypePublicSymbol.GetMembers | src/Compilers/CSharp/Portable/Symbols/AnonymousTypes/PublicSymbols/AnonymousType.TypePublicSymbol.cs:91-94 | 2n+1 members, property and getter of field i at 2i and 2i+1, the constructor last, and no fields |
| AnonymousTypes.AnonymousTypePublicSymbol.GetMembersNamed | src/Compilers/CSharp/Portable/Symbols/AnonymousTypes/PublicSymbols/AnonymousType.TypePublicSymbol.cs:122-132 | exactly the members with that name |
| AnonymousTypes.AnonymousTypePublicSymbol.GetFieldsToEmit | src/Compilers/CSharp/Portable/Symbols/AnonymousTypes/PublicSymbols/AnonymousType.TypePublicSymbol.cs:96-99 | asking a public anonymous type for fields to emit is a failure |
| AnonymousTypes.PublicEqualsLaws | src/Compilers/CSharp/Portable/Symbols/AnonymousTypes/PublicSymbols/AnonymousType.TypePublicSymbol.cs:342-351 | equality (same object, or equal descriptors) is reflexive, and symmetric when descriptor equality is |
| AnonymousTypes.TrySynthesizeDebuggerDisplay | src/Compilers/CSharp/Portable/Symbols/AnonymousTypes/SynthesizedSymbols/AnonymousType.TemplateSymbol.cs:463-500 | the string-builder loop yields `\{ }` for no properties, else `\{ `, the first min(n,10) `name = {name}` entries joined by `, `, ` ...` when n > 10, and ` }` |
| AnonymousTypes.DisplayEntriesPrefix | src/Compilers/CSharp/Portable/Symbols/AnonymousTypes/SynthesizedSymbols/AnonymousType.TemplateSymbol.cs:478-491 | the entries depend only on the first `count` names |
| AnonymousTypes.DisplayShowsAtMostTen | src/Compilers/CSharp/Portable/Symbols/AnonymousTypes/SynthesizedSymbols/AnonymousType.TemplateSymbol.cs:476-498 | past ten properties only the first ten names matter, and the string ends in ` ... }` |
| SynthesizedContainer.CreateTypeParameters | src/Compilers/CSharp/Portable/Symbols/Synthesized/SynthesizedContainer.cs:50-64 | parameterCount parameters named T1..Tn with ordinals 0..n-1, then TResult with ordinal n unless the method returns void |
| SynthesizedContainer.GeneratedNamesDistinct | src/Compilers/CSharp/Portable/Symbols/Synthesized/SynthesizedContainer.cs:50-64 | the generated type parameter names are pairwise distinct |
| SynthesizedContainer.SynthesizedContainer.constructor | src/Compilers/CSharp/Portable/Symbols/Synthesized/SynthesizedContainer.cs:22-28 | the type parameters are the generated T1..Tn, then TResult unless the method returns void, so `Arity` (:251-254) is the parameter count plus one for a result and `MangleName` (:256-259) holds iff that is positive; the constructor member exists iff one is given, and `IsAbstract` (:135-138) holds iff none is |
| SynthesizedContainer.SynthesizedContainer.WithTypeParameters | src/Compilers/CSharp/Portable/Symbols/Synthesized/SynthesizedContainer.cs:39-48 | the type parameters are the ones given, so `Arity` is their number and the name is mangled iff there are any; the constructor member exists iff one is given, and the container is abstract iff none is |
| SynthesizedContainer.SynthesizedContainer.GetMembers | src/Compilers/CSharp/Portable/Symbols/Synthesized/SynthesizedContainer.cs:161-165 | [constructor] when there is one, else empty; empty exactly when the container is abstract |
| SynthesizedContainer.SynthesizedContainer.GetMembersNamed | src/Compilers/CSharp/Portable/Symbols/Synthesized/SynthesizedContainer.cs:167-171 | [constructor] iff there is one with that name, else empty |
| SynthesizedContainer.SynthesizedContainer.GetFieldsToEmit | src/Compilers/CSharp/Portable/Symbols/Synthesized/SynthesizedContainer.cs:173-184 | the filtering loop yields exactly the field members of GetMembers in member order, and there are none |
| ReducedExtensionMethod.HasErrorDiagnostic | src/Compilers/CSharp/Portable/Symbols/ReducedExtensionMethodSymbol.cs:53-62 | true iff there is some use-site diagnostic of error severity |
| ReducedExtensionMethod.Create | src/Compilers/CSharp/Portable/Symbols/ReducedExtensionMethodSymbol.cs:32-65 | null iff type inference failed, the receiver conversion does not exist, or a use-site diagnostic is an error; otherwise a fresh reduced symbol over the inferred method with no parameters computed yet |
| ReducedExtensionMethod.ReducedParameter.Ordinal | src/Compilers/CSharp/Portable/Symbols/ReducedExtensionMethodSymbol.cs:442-445 | the underlying ordinal minus one, which is non-negative |
| ReducedExtensionMethod.ReducedExtensionMethodSymbol.constructor | src/Compilers/CSharp/Portable/Symbols/ReducedExtensionMethodSymbol.cs:86-97 | requires at least one parameter, stores the method, and leaves the parameters uncomputed |
| ReducedExtensionMethod.ReductionSplitsSignature | src/Compilers/CSharp/Portable/Symbols/ReducedExtensionMethodSymbol.cs:104-110 | the receiver type (the removed first parameter's type, :104-110) followed by the types of the `ParameterCount` (:344-347) reduced parameters is exactly the original list of parameter types |
| ReducedExtensionMethod.ReducedExtensionMethodSymbol.MakeParameters | src/Compilers/CSharp/Portable/Symbols/ReducedExtensionMethodSymbol.cs:386-406 | `ParameterCount` (count-1) parameters, parameter i wrapping underlying parameter i+1 with its ordinal shifted down by one; empty when there is exactly one underlying parameter |
| ReducedExtensionMethod.ReducedExtensionMethodSymbol.Parameters | src/Compilers/CSharp/Portable/Symbols/ReducedExtensionMethodSymbol.cs:354-364 | computed at most once: an existing value is returned unchanged, else the made parameters are stored and returned; always `ParameterCount` of them |
| ReducedExtensionMethod.ReducedExtensionMethodSymbol.GetHashCode | src/Compilers/CSharp/Portable/Symbols/ReducedExtensionMethodSymbol.cs:421-424 | the hash of the original method |
| ReducedExtensionMethod.ReducedExtensionMethodSymbol.GetTypeInferredDuringReduction | src/Compilers/CSharp/Portable/Symbols/ReducedExtensionMethodSymbol.cs:112-125 | ArgumentNull for null, ArgumentException for a type parameter of another method, otherwise a null answer |
| ReducedExtensionMethod.ReducedOrdinalsArePositions | src/Compilers/CSharp/Portable/Symbols/ReducedExtensionMethodSymbol.cs:386-445 | when the original ordinals are positions, the reduced parameter i has ordinal i |
| ReducedExtensionMethod.EqualsAgreesWithHash | src/Compilers/CSharp/Portable/Symbols/ReducedExtensionMethodSymbol.cs:413-424 | equal reduced methods (equal originals) have equal hashes when the original hash agrees with original equality |
| IntrinsicOperator.ChooseContainingType | src/Compilers/CSharp/Portable/Symbols/Synthesized/SynthesizedIntrinsicOperatorSymbol.cs:24-36 | left when left = right, else right when right = return, else left; the choice is one of the operands |
| IntrinsicOperator.ContainerMatchesResult | src/Compilers/CSharp/Portable/Symbols/Synthesized/SynthesizedIntrinsicOperatorSymbol.cs:24-36 | when the operands differ, the chosen container is the return type, ignoring custom modifiers |
| IntrinsicOperator.OperatorParameter.constructor | src/Compilers/CSharp/Portable/Symbols/Synthesized/SynthesizedIntrinsicOperatorSymbol.cs:436-446 | stores container, type, ordinal and name, with RefKind None |
| IntrinsicOperator.OperatorParameter.Equals | src/Compilers/CSharp/Portable/Symbols/Synthesized/SynthesizedIntrinsicOperatorSymbol.cs:448-463 | only a parameter at the same ordinal can be equal, and any parameter at the same ordinal of a structurally equal operator (the symbol `==` on containers, :397-429) is |
| IntrinsicOperator.ParameterEqualsLaws | src/Compilers/CSharp/Portable/Symbols/Synthesized/SynthesizedIntrinsicOperatorSymbol.cs:448-463 | parameter equality (same ordinal, equal containers) is an equivalence relation and is false for null |
| IntrinsicOperator.SynthesizedIntrinsicOperatorSymbol.Binary | src/Compilers/CSharp/Portable/Symbols/Synthesized/SynthesizedIntrinsicOperatorSymbol.cs:22-47 | the container is the chosen type; the parameters are "left" (ordinal 0, left type) and "right" (ordinal 1, right type) |
| IntrinsicOperator.SynthesizedIntrinsicOperatorSymbol.Unary | src/Compilers/CSharp/Portable/Symbols/Synthesized/SynthesizedIntrinsicOperatorSymbol.cs:49-56 | one parameter "value" of the container type with ordinal 0 |
| IntrinsicOperator.SynthesizedIntrinsicOperatorSymbol.Equals | src/Compilers/CSharp/Portable/Symbols/Synthesized/SynthesizedIntrinsicOperatorSymbol.cs:397-429 | true iff same object, or the checked flag, parameter count, name, container, return type and every parameter type agree |
| IntrinsicOperator.SameOperatorLaws | src/Compilers/CSharp/Portable/Symbols/Synthesized/SynthesizedIntrinsicOperatorSymbol.cs:411-428 | structural operator equality is an equivalence relation |
| Parameters.ThisParameter.RefKind | src/Compilers/CSharp/Portable/Symbols/Source/ThisParameterSymbol.cs:39-48 | None for a missing or non-struct type; for a struct, Out in a constructor and Ref otherwise |
| Parameters.ThisParameter.ContainingSymbol | src/Compilers/CSharp/Portable/Symbols/Source/ThisParameterSymbol.cs:60-63 | the method if there is one, else the type |
| Parameters.ThisParameter.Locations | src/Compilers/CSharp/Portable/Symbols/Source/ThisParameterSymbol.cs:50-53 | the locations of the containing symbol when that is a method, and none when the containing symbol is a type or missing |
| Parameters.ThisParameter.Ordinal | src/Compilers/CSharp/Portable/Symbols/Source/ThisParameterSymbol.cs:105-108 | negative (-1), never a real parameter position |
| Parameters.ThisParameterFor | src/Compilers/CSharp/Portable/Symbols/Source/ThisParameterSymbol.cs:20-27 | the parameter of a method records the method and the method's containing type |
| Parameters.ThisOfConstructor | src/Compilers/CSharp/Portable/Symbols/Source/ThisParameterSymbol.cs:34-63 | in a constructor, `this` is Out for a struct and None for a class, belongs to the constructor, has the constructor's containing type as its type and the constructor's locations |
| Parameters.WithCustomModifiersAndParamsCore | src/Compilers/CSharp/Portable/Symbols/Source/SourceClonedParameterSymbol.cs:73-80 | the new type, modifiers and params flag replace the old ones; name, RefKind, locations and attribute default are kept |
| Parameters.SourceClonedParameter.IsParams | src/Compilers/CSharp/Portable/Symbols/Source/SourceClonedParameterSymbol.cs:45-48 | params iff not suppressing optional and the original is params |
| Parameters.SourceClonedParameter.IsMetadataOptional | src/Compilers/CSharp/Portable/Symbols/Source/SourceClonedParameterSymbol.cs:50-57 | the original's optional attribute when suppressing, else the original's answer |
| Parameters.SourceClonedParameter.ExplicitDefaultConstantValue | src/Compilers/CSharp/Portable/Symbols/Source/SourceClonedParameterSymbol.cs:59-66 | the attribute default when suppressing, else the original's explicit default |
| Parameters.SourceClonedParameter.DefaultValueFromAttributes | src/Compilers/CSharp/Portable/Symbols/Source/SourceClonedParameterSymbol.cs:68-71 | always the original's, whatever the suppression |
| Parameters.SourceClonedParameter.Name | src/Compilers/CSharp/Portable/Symbols/Source/SourceClonedParameterSymbol.cs:114-117 | the original's name |
| Parameters.SourceClonedParameter.WithCustomModifiersAndParams | src/Compilers/CSharp/Portable/Symbols/Source/SourceClonedParameterSymbol.cs:73-80 | keeps owner, ordinal and suppression; the new type and modifiers reach the original; name and attribute default are kept; params follows the new flag unless suppressed |
| Parameters.SuppressionKeepsOnlyAttributes | src/Compilers/CSharp/Portable/Symbols/Source/SourceClonedParameterSymbol.cs:45-71 | a suppressing clone is never params and its optionality and default come only from attributes; a non-suppressing clone answers like the original |
| ConstructedNamedType.TypeWithModifiers.Modifiers | src/Compilers/CSharp/Portable/Symbols/ConstructedNamedTypeSymbol.cs:108-119 | non-empty iff the argument has custom modifiers |
| ConstructedNamedType.SelectTypeArguments | src/Compilers/CSharp/Portable/Symbols/ConstructedNamedTypeSymbol.cs:67-77 | the types in order, and the modifiers flag iff some argument has custom modifiers |
| ConstructedNamedType.EmptyTypeArgumentsCustomModifiers | src/Compilers/CSharp/Portable/Symbols/ConstructedNamedTypeSymbol.cs:108-119 | one empty modifier list per type argument |
| ConstructedNamedType.ConstructedNamedTypeSymbol.constructor | src/Compilers/CSharp/Portable/Symbols/ConstructedNamedTypeSymbol.cs:61-82 | requires arity = argument count and arity != 0; keeps the arguments and the unbound flag |
| ConstructedNamedType.ConstructedNamedTypeSymbol.TypeArgumentsCustomModifiers | src/Compilers/CSharp/Portable/Symbols/ConstructedNamedTypeSymbol.cs:108-119 | the empty shape without modifiers, else each argument's own modifiers |
| ConstructedNamedType.CustomModifiersArePerArgument | src/Compilers/CSharp/Portable/Symbols/ConstructedNamedTypeSymbol.cs:100-119 | in both cases, entry i is argument i's modifier list |
| ConstructedNamedType.TypeParametersMatchTypeArguments | src/Compilers/CSharp/Portable/Symbols/ConstructedNamedTypeSymbol.cs:121-136 | for equal non-zero lengths, true iff every argument is its type parameter |
| ConstructedNamedType.SubstitutedNestedType.TypeArguments | src/Compilers/CSharp/Portable/Symbols/ConstructedNamedTypeSymbol.cs:25-44 | the original definition's type parameters, in order |
| ConstructedNamedType.SubstitutedNestedType.HasTypeArgumentsCustomModifiers | src/Compilers/CSharp/Portable/Symbols/ConstructedNamedTypeSymbol.cs:25-44 | never has custom modifiers |
| ConstructedNamedType.NewSubstitutedNestedType | src/Compilers/CSharp/Portable/Symbols/ConstructedNamedTypeSymbol.cs:15-23 | unbound iff the container is unbound and the original arity is 0 |
| SynthesizedLocal.SynthesizedLocal.WithSynthesizedLocalKindAndSyntax | src/Compilers/CSharp/Portable/Symbols/Synthesized/SynthesizedLocal.cs:73-82 | only kind and syntax are replaced; method, type, pinned flag and RefKind are kept |
| SynthesizedLocal.SynthesizedLocal.Name | src/Compilers/CSharp/Portable/Symbols/Synthesized/SynthesizedLocal.cs:114-117 | null |
| SynthesizedLocal.SynthesizedLocal.Locations | src/Compilers/CSharp/Portable/Symbols/Synthesized/SynthesizedLocal.cs:124-127 | at most one location, absent exactly when there is no syntax, and otherwise the location of `GetDeclaratorSyntax` (:134-138) |
| SynthesizedLocal.SynthesizedLocal.DeclaringSyntaxReferences | src/Compilers/CSharp/Portable/Symbols/Synthesized/SynthesizedLocal.cs:129-132 | as many references as `Locations` has locations, and the one there is belongs to `GetDeclaratorSyntax` |
| SynthesizedLocal.LongLivedLocalIsDeclared | src/Compilers/CSharp/Portable/Symbols/Synthesized/SynthesizedLocal.cs:124-138 | a valid long-lived local (one the constructor's assertion gave syntax) has exactly the declarator's location and the declarator's reference |
| SynthesizedLocal.SynthesizedLocal.DebuggerDisplay | src/Compilers/CSharp/Portable/Symbols/Synthesized/SynthesizedLocal.cs:165-181 | `<temp>` for a user-defined local, else the kind's name, then a space and the type |
| SynthesizedLocal.NewSynthesizedLocal | src/Compilers/CSharp/Portable/Symbols/Synthesized/SynthesizedLocal.cs:28-50 | requires a non-void type and syntax for long-lived kinds; stores every argument |
| SynthesizedLocal.WithKindAndSyntaxValid | src/Compilers/CSharp/Portable/Symbols/Synthesized/SynthesizedLocal.cs:73-82 | the replaced local is still valid (its type is still not void) given syntax for a long-lived kind |
| StrongNameKeys.StrongNameKeys.CanProvideStrongName | src/Compilers/Core/Portable/StrongNameKeys.cs:117-123 | iff the keys can sign or the public key is known |
| StrongNameKeys.FromDiagnostic | src/Compilers/Core/Portable/StrongNameKeys.cs:55-59 | carries the diagnostic and can provide no strong name |
| StrongNameKeys.NewStrongNameKeys | src/Compilers/Core/Portable/StrongNameKeys.cs:61-70 | requires no key pair with a container and a file path with a key pair; stores the four values with no diagnostic |
| StrongNameKeys.BitConverterToString | src/Compilers/Core/Portable/StrongNameKeys.cs:82-83 | two hex digits per byte with dashes between: 3n-1 characters, empty for no bytes |
| StrongNameKeys.BitConverterHasDashes | src/Compilers/Core/Portable/StrongNameKeys.cs:82-83 | with two or more bytes the third character is a dash |
| StrongNameKeys.CreateFromPublicKey | src/Compilers/Core/Portable/StrongNameKeys.cs:72-85 | a valid public key gives public-key-only keys, an invalid one a BadCompilationOptionValue diagnostic; such keys never sign |
| StrongNameKeys.GetContainerError | src/Compilers/Core/Portable/StrongNameKeys.cs:137-140 | PublicKeyContainerFailure with the name and the message |
| StrongNameKeys.GetKeyFileError | src/Compilers/Core/Portable/StrongNameKeys.cs:142-145 | PublicKeyFileFailure with the path and the message |
| StrongNameKeys.GetError | src/Compilers/Core/Portable/StrongNameKeys.cs:125-135 | the container error iff the container name is non-null, else the key-file error |
| StrongNameKeys.Create | src/Compilers/Core/Portable/StrongNameKeys.cs:87-101 | no keys when both path and container are null or empty; else a signing-not-supported diagnostic without a provider; else what the provider creates |
| StrongNameKeys.CreateWithoutProviderCannotSign | src/Compilers/Core/Portable/StrongNameKeys.cs:87-101 | without a provider no strong name is possible, and there is a diagnostic iff a path or container was named |
| StrongNameKeys.IsValidPublicKeyString | src/Compilers/Core/Portable/StrongNameKeys.cs:147-165 | true iff the string is non-null, non-empty, of even length, and every character is 0-9, a-f or A-F |
| ByteSequenceComparer.EqualsImmutable | src/Compilers/Core/Portable/Collections/ByteSequenceComparer.cs:21-42 | true for the identical array; false when exactly one is default or the lengths differ; otherwise element-wise equality |
| ByteSequenceComparer.EqualsRange | src/Compilers/Core/Portable/Collections/ByteSequenceComparer.cs:44-65 | with a null argument, whether both are null; the same array and start is equal without comparing; otherwise the element-by-element comparison: false at the first mismatch, true after `length` matches, and an out-of-range failure when an index leaves its array first |
| ByteSequenceComparer.CompareInBounds | src/Compilers/Core/Portable/Collections/ByteSequenceComparer.cs:55-64 | when both ranges lie inside their arrays the comparison never fails, and it answers exactly whether the two ranges hold the same bytes |
| ByteSequenceComparer.EarlyMismatchAnswersFalse | src/Compilers/Core/Portable/Collections/ByteSequenceComparer.cs:55-64 | a mismatch met before either index leaves its array answers false, whatever lies beyond it and however long `length` is |
| ByteSequenceComparer.Equals | src/Compilers/Core/Portable/Collections/ByteSequenceComparer.cs:67-88 | true for the same reference; false for a single null or differing lengths; otherwise element-wise equality |
| ByteSequenceComparer.SameBytesIsEquivalence | src/Compilers/Core/Portable/Collections/ByteSequenceComparer.cs:67-88 | whole-array equality is reflexive, symmetric and transitive |
| ByteSequenceComparer.SameBytesIsFullRange | src/Compilers/Core/Portable/Collections/ByteSequenceComparer.cs:44-88 | whole-array equality of equal-length arrays is range equality from 0 over the whole length |
| RefKind.ToDisplayString | src/Compilers/Core/Portable/Symbols/RefKind.cs:30-38 | "out" for Out, "ref" for Ref, null for every other value |
| RefKind.ToPrefix | src/Compilers/Core/Portable/Symbols/RefKind.cs:40-48 | empty exactly when there is no display string |
| RefKind.PrefixIsDisplayStringAndSpace | src/Compilers/Core/Portable/Symbols/RefKind.cs:30-48 | the prefix is the display string followed by a space |
| OptimizationLevel.IsValid | src/Compilers/Core/Portable/Compilation/OptimizationLevel.cs:48-51 | valid exactly for Debug (0) and Release (1) among all 32-bit values |
| ModuleCompilationState.ModuleCompilationState.constructor | src/Compilers/Core/Portable/Compilation/CommonModuleCompilationState.cs:9-11 | not frozen, no map yet |
| ModuleCompilationState.ModuleCompilationState.Freeze | src/Compilers/Core/Portable/Compilation/CommonModuleCompilationState.cs:13-21 | requires not frozen; afterwards `Frozen` (:23-26) holds, with the map unchanged |
| ModuleCompilationState.ModuleCompilationState.SetStateMachineType | src/Compilers/Core/Portable/Compilation/CommonModuleCompilationState.cs:38-51 | requires not frozen; a new method gains exactly its entry, and a method already mapped is refused (the ArgumentException of `Dictionary.Add`) with the entries unchanged |
| ModuleCompilationState.ModuleCompilationState.TryGetStateMachineType | src/Compilers/Core/Portable/Compilation/CommonModuleCompilationState.cs:53-59 | requires frozen; true with the mapped type iff the method is mapped, else false with null |
| ModuleCompilationState.RegisterThenFreeze | src/Compilers/Core/Portable/Compilation/CommonModuleCompilationState.cs:13-59 | after registering and freezing, `Frozen` holds, a newly registered method is found with its type, a method registered earlier keeps its first type, and other methods keep their earlier answer |
| ModuleAttributeData.CommonModuleWellKnownAttributeData.constructor | src/Compilers/Core/Portable/Symbols/Attributes/CommonModuleWellKnownAttributeData.cs:12-14 | unsealed, no data stored, no debuggable attribute, no character set |
| ModuleAttributeData.CommonModuleWellKnownAttributeData.Seal | src/Compilers/Core/Portable/Symbols/Attributes/CommonModuleWellKnownAttributeData.cs:15-29 | requires unsealed; seals and keeps the data |
| ModuleAttributeData.DebuggableRoundTrip | src/Compilers/Core/Portable/Symbols/Attributes/CommonModuleWellKnownAttributeData.cs:16-29 | a debuggable flag set before sealing is what `HasDebuggableAttribute` reads after sealing; the character set attribute is untouched |
| ModuleAttributeData.CommonModuleWellKnownAttributeData.SetHasDebuggableAttribute | src/Compilers/Core/Portable/Symbols/Attributes/CommonModuleWellKnownAttributeData.cs:25-29 | requires unsealed; stores the flag and marks data stored, changing nothing else |
| ModuleAttributeData.CommonModuleWellKnownAttributeData.DefaultCharacterSet | src/Compilers/Core/Portable/Symbols/Attributes/CommonModuleWellKnownAttributeData.cs:34-43 | requires sealed and a stored character set; returns it |
| ModuleAttributeData.CommonModuleWellKnownAttributeData.SetDefaultCharacterSet | src/Compilers/Core/Portable/Symbols/Attributes/CommonModuleWellKnownAttributeData.cs:44-51 | requires unsealed and a valid character set; stores it as a byte, marks data stored, and HasDefaultCharSetAttribute then holds |
| ModuleAttributeData.CharSetRoundTrip | src/Compilers/Core/Portable/Symbols/Attributes/CommonModuleWellKnownAttributeData.cs:34-61 | a valid character set stored and read after sealing is the same value |
| LabelInfo.LabelInfo.WithNewTarget | src/Compilers/Core/Portable/CodeGen/LabelInfo.cs:47-50 | replaces the block only |
| LabelInfo.LabelInfo.SetTargetOfConditionalBranches | src/Compilers/Core/Portable/CodeGen/LabelInfo.cs:52-55 | sets the flag and keeps block and stack |
| LabelInfo.Unmarked | src/Compilers/Core/Portable/CodeGen/LabelInfo.cs:32-35 | no block, the given stack depth and flag |
| LabelInfo.Marked | src/Compilers/Core/Portable/CodeGen/LabelInfo.cs:40-45 | the given block, stack depth and flag |
| LabelInfo.LabelUpdateLaws | src/Compilers/Core/Portable/CodeGen/LabelInfo.cs:32-55 | setting the flag is idempotent and commutes with retargeting, and retargeting an unmarked label gives the marked one |
| LocalDefinition.LocalDefinition.Location | src/Compilers/Core/Portable/CodeGen/LocalDefinition.cs:87-102 | either no location or one of the symbol's own locations: the first one when the symbol has a non-empty array, none without a symbol or with a default or empty array |
| LocalDefinition.LocalDefinition.DebuggerDisplay | src/Compilers/Core/Portable/CodeGen/LocalDefinition.cs:82-83 | `slot: name (type)`, with `<unnamed>` for a missing name |
| LocalDefinition.LocalDefinition.CompileTimeValue | src/Compilers/Core/Portable/CodeGen/LocalDefinition.cs:106-109 | asking a local definition for a compile-time value is a failure |
| LocalDefinition.NewLocalDefinition | src/Compilers/Core/Portable/CodeGen/LocalDefinition.cs:59-80 | stores every argument unchanged, so `SlotIndex` (:104) reads back the slot given |
| LocalDefinition.ConstraintFlagsIndependent | src/Compilers/Core/Portable/CodeGen/LocalDefinition.cs:121-127 | IsPinned tests only the Pinned bit and IsReference only the ByRef bit; setting one leaves the other answer alone |
| LocalDefinition.DisplayStartsWithSlot | src/Compilers/Core/Portable/CodeGen/LocalDefinition.cs:82-83 | the display starts with the decimal slot and `: ` |
| LazyState.OrdinalMapInjective | src/Compilers/CSharp/Portable/Compilation/SyntaxAndDeclarationManager.LazyState.cs:33 | given the constructor's invariant, distinct trees have distinct ordinals |
| LazyState.OrdinalOfIndex | src/Compilers/CSharp/Portable/Compilation/SyntaxAndDeclarationManager.LazyState.cs:33 | every tree at index i is mapped, to an ordinal that indexes that tree |
| LazyState.State.constructor | src/Compilers/CSharp/Portable/Compilation/SyntaxAndDeclarationManager.LazyState.cs:25-42 | requires the ordinal map to invert the tree list and the root-namespace keys to be the trees; stores all six fields |
| LazyState.State.Ordinal | src/Compilers/CSharp/Portable/Compilation/SyntaxAndDeclarationManager.LazyState.cs:33 | every tree's ordinal is a valid index of that tree |
| LazyState.State.RootNamespace | src/Compilers/CSharp/Portable/Compilation/SyntaxAndDeclarationManager.LazyState.cs:34 | every tree has a root namespace |
| Strings.NatToString | src/Compilers/Core/Portable/CodeGen/LocalDefinition.cs:82-83 | the decimal rendering used in display strings is a non-empty digit string |
| Strings.NatToStringInjective | src/Compilers/CSharp/Portable/Symbols/Synthesized/SynthesizedContainer.cs:55 | different numbers render differently, which makes T1..Tn distinct |
| Strings.IntToString | src/Compilers/Core/Portable/CodeGen/LocalDefinition.cs:82-83 | a negative slot is rendered with a leading minus sign |

## Left out

- Plain stored-value accessors carry no contract of their own. Their values are stated where they are set or used instead: `ThisParameter.Type` and `ThisParameter.Name` (in ThisOfConstructor), `AnonymousTypeTemplateSymbol.Name` and `SmallestLocation` (in SetNameAndIndex and AdjustLocation), `SynthesizedContainer.Arity`, `MangleName` and `IsAbstract` (in its constructors), `ReducedExtensionMethodSymbol.ParameterCount` and `ReceiverType` (in ReductionSplitsSignature), `SynthesizedLocal.GetDeclaratorSyntax` (in Locations), `LocalDefinition.SlotIndex` (in NewLocalDefinition), `CommonModuleWellKnownAttributeData.HasDebuggableAttribute` (in DebuggableRoundTrip) and `ModuleCompilationState.Frozen` (in Freeze and RegisterThenFreeze).
- GreenNode.AdjustFlagsAndWidth: widths and offsets are unbounded integers. The source adds them as unchecked 32-bit `int`s, in `AdjustFlagsAndWidth` and in `CalculateOffsets` of SyntaxList.WithLotsOfChildren.cs:58-69, so a tree whose total width reached 2^31 would wrap there. The model assumes every width stays below 2^31 and does not model the wrap.
- ByteSequenceComparer.EqualsRange: `leftStart + i` and `rightStart + i` are unbounded integers, so a start near 2^31 that would overflow the 32-bit index sum is not modelled.
- Concurrency. Interlocked compare-exchange and retry loops (AnonymousType.TemplateSymbol.cs, ReducedExtensionMethodSymbol.cs), the memory barrier and lock of CommonModuleCompilationState.cs, and the thread-safe publication inside `GetRedElement` are modelled as plain sequential updates.
- AnonymousTypes.AnonymousTypeTemplateSymbol.AdjustLocation: the compare-exchange retry loop becomes a single conditional update, and `CompareSourceLocations` becomes a strict order on (tree ordinal, position).
- Hash functions. `Hash.Combine` and the FNV-1a hash of ByteSequenceComparer.cs:90-102 are not modelled. Hashes appear only as caller-supplied functions, as in ReducedExtensionMethod.EqualsAgreesWithHash.
- Object serialization. ObjectReader and ObjectWriter become sequences of abstract field values. What the unseen base `WriteTo` writes is one base-fields record: the kind, the diagnostics and the annotations.
- Unseen helpers, each modelled by its stated behaviour:
  - `AdjustFlagsAndWidth` adds the width and ORs the not-missing flag.
  - `BinarySearchUpperBound` is implemented and proved.
  - `GetRedElement`/`GetRedElementIfNotToken` materialize a node at the slot's position when the slot is empty.
  - The `Binder` base constructor copies the next binder's flags.
  - `VerifySealed`/`SetDataStored` are the sealed and stored flags.
  - `WithCustomModifiersAndParamsCore` is a record update.
- Culture formatting. `Convert.ToString(value, InvariantCulture)` in SyntaxToken.SyntaxLiteral.cs is a caller-supplied function. SyntaxFacts' kind text, used for the text of tokens with trivia, is one too.
- SyntaxToken.Value and SyntaxToken.ValueText: they are not defined for the plain token-with-trivia variant, whose answers come from the unseen `SyntaxToken` base class. ValueText is also not defined for the missing token, for the same reason.
- The `SyntaxKind` numbers are not part of this model. `IdentifierToken`, the list kind and the `unsafe` keyword are placeholder constants.
- ReducedExtensionMethod.Create: type inference (`InferExtensionMethodTypeArguments`), the receiver conversion check and use-site diagnostics are inputs. `Construct` with the inferred type arguments is represented by the inferred method itself.
- `MultiDictionary` order. `GetMembers(name)` is modelled as the set of members with that name, so the order in which the real dictionary yields them is not captured.
- IntrinsicOperator.SynthesizedIntrinsicOperatorSymbol.Binary: the debug assertions about `dynamic` operand types are not modelled. The remaining assertion, that left = return when neither other rule applies, is the precondition.
- SynthesizedLocal.SynthesizedLocal.DebuggerDisplay: models the release build. The DEBUG-only suffix with the creation stack and syntax is left out. `IsLongLived` is a caller-supplied predicate on kinds.
- ModuleAttributeData.IsValidCharSet: the values `CharSet.None = 1` and `CharSet.Auto = 4` are taken from `System.Runtime.InteropServices.CharSet`, which is not part of this model.
- LocalDefinition: the `LocalSlotConstraints` values `ByRef = 1` and `Pinned = 2` are assumed, because that enumeration is not part of this model.
- StrongNameKeys.CreateFromPublicKey: `MetadataHelpers.IsValidPublicKey` is a caller-supplied predicate. The strong name provider's `CreateKeys` is a caller-supplied function.
- Symbols and types are identities or small records. Type substitution (`TypeMap`), including the alpha-renaming constructor of SynthesizedContainer.cs:30-37, conversions, accessibility and the retargeting translator are not modelled.
- The symbol property bags that only return constants (accessibility, attributes, `IsStatic` flags and similar) are left out, except where a property above states one.
