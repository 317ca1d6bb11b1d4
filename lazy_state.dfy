/**
 * SyntaxAndDeclarationManager.State: the syntax trees of a compilation in
 * ordinal order, with the maps derived from them (tree to ordinal, load
 * directives, trees loaded by path, root namespace declarations).
 */
module LazyState {
  /** The ordinal map inverts the tree array: looking a tree up and indexing with the result gives the tree back. */
  ghost predicate OrdinalMapInvertsTrees<Tree>(syntaxTrees: seq<Tree>, ordinalMap: map<Tree, int>)
  {
    forall t :: t in syntaxTrees ==> t in ordinalMap && 0 <= ordinalMap[t] < |syntaxTrees| && syntaxTrees[ordinalMap[t]] == t
  }

  /** Different trees have different ordinals. */
  lemma OrdinalMapInjective<Tree>(syntaxTrees: seq<Tree>, ordinalMap: map<Tree, int>, t1: Tree, t2: Tree)
    requires OrdinalMapInvertsTrees(syntaxTrees, ordinalMap)
    requires t1 in syntaxTrees && t2 in syntaxTrees && t1 != t2
    ensures ordinalMap[t1] != ordinalMap[t2]
  {
    assert syntaxTrees[ordinalMap[t1]] == t1;
    assert syntaxTrees[ordinalMap[t2]] == t2;
  }

  /** The tree at index i has an ordinal, and that ordinal holds the same tree. */
  lemma OrdinalOfIndex<Tree>(syntaxTrees: seq<Tree>, ordinalMap: map<Tree, int>, i: int)
    requires OrdinalMapInvertsTrees(syntaxTrees, ordinalMap)
    requires 0 <= i < |syntaxTrees|
    ensures syntaxTrees[i] in ordinalMap
    ensures syntaxTrees[ordinalMap[syntaxTrees[i]]] == syntaxTrees[i]
  {
    assert syntaxTrees[i] in syntaxTrees;
  }

  class State<Tree(==), LoadDirective, RootNamespace, DeclarationTable> {
    const syntaxTrees: seq<Tree>
    const ordinalMap: map<Tree, int>
    const loadDirectiveMap: map<Tree, seq<LoadDirective>>
    const loadedSyntaxTreeMap: map<string, Tree>
    const rootNamespaces: map<Tree, RootNamespace>
    const declarationTable: DeclarationTable

    ghost predicate Valid()
    {
      OrdinalMapInvertsTrees(syntaxTrees, ordinalMap)
      && (set t | t in syntaxTrees) == rootNamespaces.Keys
    }

    /** Every tree has a root namespace declaration and every root namespace belongs to a tree. */
    constructor (syntaxTrees: seq<Tree>, syntaxTreeOrdinalMap: map<Tree, int>,
                 loadDirectiveMap: map<Tree, seq<LoadDirective>>, loadedSyntaxTreeMap: map<string, Tree>,
                 rootNamespaces: map<Tree, RootNamespace>, declarationTable: DeclarationTable)
      requires OrdinalMapInvertsTrees(syntaxTrees, syntaxTreeOrdinalMap)
      requires (set t | t in syntaxTrees) == rootNamespaces.Keys
      ensures Valid()
      ensures this.syntaxTrees == syntaxTrees && ordinalMap == syntaxTreeOrdinalMap
      ensures this.loadDirectiveMap == loadDirectiveMap && this.loadedSyntaxTreeMap == loadedSyntaxTreeMap
      ensures this.rootNamespaces == rootNamespaces && this.declarationTable == declarationTable
    {
      this.syntaxTrees := syntaxTrees;
      ordinalMap := syntaxTreeOrdinalMap;
      this.loadDirectiveMap := loadDirectiveMap;
      this.loadedSyntaxTreeMap := loadedSyntaxTreeMap;
      this.rootNamespaces := rootNamespaces;
      this.declarationTable := declarationTable;
    }

    /** The ordinal of a tree of the state. */
    function Ordinal(t: Tree): (r: int)
      requires Valid() && t in syntaxTrees
      ensures 0 <= r < |syntaxTrees| && syntaxTrees[r] == t
    {
      ordinalMap[t]
    }

    /** The root namespace declaration of a tree of the state. */
    function RootNamespace(t: Tree): (r: RootNamespace)
      requires Valid() && t in syntaxTrees
      ensures t in rootNamespaces && r == rootNamespaces[t]
    {
      assert t in (set u | u in syntaxTrees);
      rootNamespaces[t]
    }
  }
}
