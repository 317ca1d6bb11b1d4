/**
 * CommonModuleCompilationState and ModuleCompilationState: per-module state
 * filled while methods are compiled and read only after it is frozen; here,
 * the map from async and iterator methods to their state machine types.
 */
module ModuleCompilationState {
  import opened Wrappers

  class ModuleCompilationState<TMethodSymbol(==), TNamedTypeSymbol> {
    var frozen: bool
    /** Created on the first registration. */
    var lazyStateMachineTypes: Option<map<TMethodSymbol, TNamedTypeSymbol>>

    constructor ()
      ensures !frozen && lazyStateMachineTypes.None?
    {
      frozen := false;
      lazyStateMachineTypes := None;
    }

    /** The registered entries, with a map never created read as empty. */
    function StateMachineTypes(): map<TMethodSymbol, TNamedTypeSymbol>
      reads this
    {
      if lazyStateMachineTypes.Some? then lazyStateMachineTypes.value else map[]
    }

    /** Freezing happens once, and only flips the flag. */
    method Freeze()
      requires !frozen
      modifies this
      ensures frozen && Frozen()
      ensures lazyStateMachineTypes == old(lazyStateMachineTypes)
    {
      frozen := true;
    }

    function Frozen(): bool
      reads this
    {
      frozen
    }

    /**
     * Dictionary.Add: `added` is false when the method is registered already,
     * where Add throws an ArgumentException and the entries stay as they were.
     */
    method SetStateMachineType(m: TMethodSymbol, stateMachineClass: TNamedTypeSymbol) returns (added: bool)
      requires !frozen
      modifies this
      ensures added <==> m !in old(StateMachineTypes())
      ensures added ==> lazyStateMachineTypes == Some(old(StateMachineTypes())[m := stateMachineClass])
      ensures !added ==> lazyStateMachineTypes == old(lazyStateMachineTypes)
      ensures frozen == old(frozen)
    {
      if lazyStateMachineTypes.None? {
        lazyStateMachineTypes := Some(map[]);
      }
      if m in lazyStateMachineTypes.value {
        return false;
      }
      lazyStateMachineTypes := Some(lazyStateMachineTypes.value[m := stateMachineClass]);
      added := true;
    }

    /** The state machine of `m`, with false and null when it has none or nothing was registered. */
    function TryGetStateMachineType(m: TMethodSymbol): (r: (bool, Option<TNamedTypeSymbol>))
      reads this
      requires frozen
      ensures r.0 <==> lazyStateMachineTypes.Some? && m in lazyStateMachineTypes.value
      ensures r.0 ==> r.1 == Some(lazyStateMachineTypes.value[m])
      ensures !r.0 ==> r.1.None?
    {
      if lazyStateMachineTypes.Some? && m in lazyStateMachineTypes.value then (true, Some(lazyStateMachineTypes.value[m]))
      else (false, None)
    }
  }

  /**
   * What is registered before freezing is found afterwards, a second
   * registration of the same method keeps the first one, and other methods
   * are not affected.
   */
  method RegisterThenFreeze<M(==), T>(s: ModuleCompilationState<M, T>, m: M, c: T, other: M)
    requires !s.frozen && other != m
    modifies s
    ensures s.Frozen()
    ensures m !in old(s.StateMachineTypes()) ==> s.TryGetStateMachineType(m) == (true, Some(c))
    ensures m in old(s.StateMachineTypes()) ==> s.TryGetStateMachineType(m) == (true, Some(old(s.StateMachineTypes())[m]))
    ensures s.TryGetStateMachineType(other) == (
      if other in old(s.StateMachineTypes()) then (true, Some(old(s.StateMachineTypes())[other])) else (false, None))
  {
    var _ := s.SetStateMachineType(m, c);
    s.Freeze();
  }
}
