// The state of the prefix cache of engine/cache/prefix.py as a value, its invariant, and the
// effect of each elementary change on that invariant.
module PrefixForest {
  import opened Common
  import opened Ownership

  datatype PrefixNode = PrefixNode(
    parent: Option<nat>, tokens: seq<Token>, block: nat, children: set<nat>, lastAccess: nat)

  datatype ExactEntry = ExactEntry(entry: nat, blocks: seq<nat>, nextToken: Token, lastAccess: nat)

  datatype Edge = Edge(parent: Option<nat>, tokens: seq<Token>)

  // Something the cache can evict.
  datatype Item = NodeItem(node: nat) | ExactItem(key: seq<Token>)

  // `paths` spells out the tokens from the root to each node; `index` is its inverse.
  datatype View = View(
    nodes: map<nat, PrefixNode>,
    edges: map<Edge, nat>,
    exact: map<seq<Token>, ExactEntry>,
    references: map<nat, nat>,
    nextNode: nat,
    nextEntry: nat,
    clock: nat,
    paths: map<nat, seq<Token>>,
    index: map<seq<Token>, nat>,
    owned: Ledger)

  function EdgeOf(node: PrefixNode): Edge { Edge(node.parent, node.tokens) }

  ghost function ParentPath(v: View, parent: Option<nat>): seq<Token>
    requires parent.Some? ==> parent.value in v.paths
  {
    if parent.None? then [] else v.paths[parent.value]
  }

  ghost predicate NodeOk(v: View, size: nat, i: nat)
    requires i in v.nodes && v.paths.Keys == v.nodes.Keys
  {
    var node := v.nodes[i];
    && |node.tokens| == size
    && EdgeOf(node) in v.edges && v.edges[EdgeOf(node)] == i
    && v.paths[i] in v.index && v.index[v.paths[i]] == i
    && (node.parent.Some? ==>
          var p := node.parent.value;
          p in v.nodes && p < i && i in v.nodes[p].children)
    && v.paths[i] == ParentPath(v, node.parent) + node.tokens
    && (forall c | c in node.children :: c in v.nodes && v.nodes[c].parent == Some(i))
  }

  // Nodes and edges are in bijection, parents outlive and precede their children, child sets
  // are exact, and a path names at most one node.
  ghost predicate Forest(v: View, size: nat) {
    && v.paths.Keys == v.nodes.Keys
    && (forall i | i in v.nodes :: i < v.nextNode)
    && (forall i {:trigger NodeOk(v, size, i)} | i in v.nodes :: NodeOk(v, size, i))
    && (forall e | e in v.edges :: v.edges[e] in v.nodes && EdgeOf(v.nodes[v.edges[e]]) == e)
    && (forall p | p in v.index :: v.index[p] in v.nodes && v.paths[v.index[p]] == p)
  }

  // The ledger lists exactly one block per node and one run of blocks per exact entry.
  ghost predicate Owns(v: View) {
    && (forall i :: i in v.nodes <==> Node(i) in v.owned)
    && (forall i | i in v.nodes :: v.owned[Node(i)] == [v.nodes[i].block])
    && (forall k | k in v.exact ::
          && v.exact[k].entry < v.nextEntry
          && Exact(v.exact[k].entry) in v.owned
          && v.owned[Exact(v.exact[k].entry)] == v.exact[k].blocks)
    && (forall e | Exact(e) in v.owned :: e in EntryIds(v.exact))
    && (forall k, l | k in v.exact && l in v.exact && v.exact[k].entry == v.exact[l].entry :: k == l)
  }

  ghost function EntryIds(exact: map<seq<Token>, ExactEntry>): set<nat> {
    set k | k in exact :: exact[k].entry
  }

  function RefCount(references: map<nat, nat>, b: nat): nat {
    if b in references then references[b] else 0
  }

  // The incremental reference map counts the cache owners of each block.
  ghost predicate Referenced(v: View) {
    && (forall b: nat :: RefCount(v.references, b) == |CacheHolders(v.owned, b)|)
    && (forall b: nat | b in v.references :: v.references[b] > 0)
  }

  predicate Has(v: View, item: Item) {
    match item
    case NodeItem(i) => i in v.nodes
    case ExactItem(k) => k in v.exact
  }

  function Stamp(v: View, item: Item): nat
    requires Has(v, item)
  {
    match item
    case NodeItem(i) => v.nodes[i].lastAccess
    case ExactItem(k) => v.exact[k].lastAccess
  }

  // Access stamps never exceed the clock and no two items share one.
  ghost predicate Stamped(v: View) {
    && (forall a | Has(v, a) :: Stamp(v, a) <= v.clock)
    && (forall a, b | Has(v, a) && Has(v, b) && a != b :: Stamp(v, a) != Stamp(v, b))
  }

  ghost predicate Coherent(v: View, size: nat) {
    Forest(v, size) && Owns(v) && Referenced(v) && Stamped(v)
  }

  // What the cache offers: block-aligned prefix to the physical block of its last block.
  ghost function Catalog(v: View): map<seq<Token>, nat>
    requires forall p | p in v.index :: v.index[p] in v.nodes
  {
    map p | p in v.index :: v.nodes[v.index[p]].block
  }

  lemma CatalogKeys(v: View)
    requires forall p | p in v.index :: v.index[p] in v.nodes
    ensures Catalog(v).Keys == v.index.Keys
  {
  }

  // When each published prefix was last used.
  ghost function Stamps(v: View): map<seq<Token>, nat>
    requires forall p | p in v.index :: v.index[p] in v.nodes
  {
    map p | p in v.index :: v.nodes[v.index[p]].lastAccess
  }

  // ---- elementary changes -------------------------------------------------------------

  function TouchedNode(v: View, i: nat): View
    requires i in v.nodes
  {
    v.(nodes := v.nodes[i := v.nodes[i].(lastAccess := v.clock + 1)], clock := v.clock + 1)
  }

  function TouchedExact(v: View, k: seq<Token>): View
    requires k in v.exact
  {
    v.(exact := v.exact[k := v.exact[k].(lastAccess := v.clock + 1)], clock := v.clock + 1)
  }

  function WithChild(nodes: map<nat, PrefixNode>, parent: Option<nat>, child: nat): map<nat, PrefixNode>
    requires parent.Some? ==> parent.value in nodes
  {
    if parent.None? then nodes
    else nodes[parent.value := nodes[parent.value].(children := nodes[parent.value].children + {child})]
  }

  // A fresh node for the next block of a path, stamped with the current clock tick.
  ghost function Grown(v: View, parent: Option<nat>, tokens: seq<Token>, block: nat, references: map<nat, nat>): View
    requires parent.Some? ==> parent.value in v.nodes && parent.value in v.paths
  {
    var i := v.nextNode;
    var path := ParentPath(v, parent) + tokens;
    v.(nodes := WithChild(v.nodes, parent, i)[i := PrefixNode(parent, tokens, block, {}, v.clock + 1)],
       edges := v.edges[Edge(parent, tokens) := i],
       references := references,
       nextNode := i + 1,
       clock := v.clock + 1,
       paths := v.paths[i := path],
       index := v.index[path := i],
       owned := v.owned[Node(i) := [block]])
  }

  ghost function WithExact(v: View, key: seq<Token>, blocks: seq<nat>, next: Token, references: map<nat, nat>): View {
    v.(exact := v.exact[key := ExactEntry(v.nextEntry, blocks, next, v.clock + 1)],
       references := references,
       nextEntry := v.nextEntry + 1,
       clock := v.clock + 1,
       owned := v.owned[Exact(v.nextEntry) := blocks])
  }

  function WithoutChild(nodes: map<nat, PrefixNode>, parent: Option<nat>, child: nat): map<nat, PrefixNode> {
    if parent.None? || parent.value !in nodes then nodes
    else nodes[parent.value := nodes[parent.value].(children := nodes[parent.value].children - {child})]
  }

  ghost function Without(v: View, item: Item, references: map<nat, nat>): View
    requires Has(v, item) && v.paths.Keys == v.nodes.Keys
  {
    match item
    case ExactItem(k) =>
      v.(exact := v.exact - {k}, references := references, owned := v.owned - {Exact(v.exact[k].entry)})
    case NodeItem(i) =>
      v.(nodes := WithoutChild(v.nodes - {i}, v.nodes[i].parent, i),
         edges := v.edges - {EdgeOf(v.nodes[i])},
         references := references,
         paths := v.paths - {i},
         index := v.index - {v.paths[i]},
         owned := v.owned - {Node(i)})
  }

  function ItemOwner(v: View, item: Item): Owner
    requires Has(v, item)
  {
    match item
    case NodeItem(i) => Node(i)
    case ExactItem(k) => Exact(v.exact[k].entry)
  }

  function ItemBlocks(v: View, item: Item): seq<nat>
    requires Has(v, item)
  {
    match item
    case NodeItem(i) => [v.nodes[i].block]
    case ExactItem(k) => v.exact[k].blocks
  }

  ghost predicate Bumped(before: map<nat, nat>, blocks: seq<nat>, after: map<nat, nat>) {
    && (forall b: nat :: RefCount(after, b) == RefCount(before, b) + if b in blocks then 1 else 0)
    && (forall b: nat | b in after :: after[b] > 0)
  }

  // ---- the changes keep the invariant ---------------------------------------------------

  // The forest does not look at access stamps.
  ghost predicate SameForest(v: View, w: View) {
    && w.nodes.Keys == v.nodes.Keys && w.edges == v.edges && w.paths == v.paths
    && w.index == v.index && w.nextNode == v.nextNode
    && forall i | i in v.nodes :: w.nodes[i] == v.nodes[i].(lastAccess := w.nodes[i].lastAccess)
  }

  lemma SameForestKeeps(v: View, w: View, size: nat)
    requires Forest(v, size) && SameForest(v, w)
    ensures Forest(w, size) && Catalog(w) == Catalog(v)
  {
    forall i {:trigger NodeOk(w, size, i)} | i in w.nodes ensures NodeOk(w, size, i) {
      assert NodeOk(v, size, i);
      assert w.nodes[i].children == v.nodes[i].children;
    }
  }

  // Stamps after giving one item the next clock tick.
  lemma FreshStamp(v: View, w: View, item: Item)
    requires Stamped(v) && w.clock == v.clock + 1
    requires Has(w, item) && Stamp(w, item) == w.clock
    requires forall a | Has(w, a) && a != item :: Has(v, a) && Stamp(w, a) == Stamp(v, a)
    ensures Stamped(w)
  {
  }

  lemma FewerStamps(v: View, w: View)
    requires Stamped(v) && w.clock == v.clock
    requires forall a | Has(w, a) :: Has(v, a) && Stamp(w, a) == Stamp(v, a)
    ensures Stamped(w)
  {
  }

  lemma TouchNodeKeeps(v: View, size: nat, i: nat)
    requires Coherent(v, size) && i in v.nodes
    ensures Coherent(TouchedNode(v, i), size)
    ensures Catalog(TouchedNode(v, i)) == Catalog(v)
  {
    var w := TouchedNode(v, i);
    SameForestKeeps(v, w, size);
    FreshStamp(v, w, NodeItem(i));
  }

  // A touch shows on one prefix only.
  lemma TouchStamps(v: View, size: nat, i: nat)
    requires Forest(v, size) && i in v.nodes && i in v.paths
    ensures forall p | p in v.index :: v.index[p] in v.nodes
    ensures Stamps(TouchedNode(v, i)) == Stamps(v)[v.paths[i] := v.clock + 1]
  {
    IndexInverts(v, size, i);
    hide Forest;
  }

  lemma IndexInverts(v: View, size: nat, i: nat)
    requires Forest(v, size) && i in v.nodes
    ensures forall p | p in v.index :: v.index[p] in v.nodes
    ensures v.paths[i] in v.index && forall p | p in v.index :: v.index[p] == i <==> p == v.paths[i]
  {
    assert NodeOk(v, size, i);
  }

  lemma TouchExactKeeps(v: View, size: nat, k: seq<Token>)
    requires Coherent(v, size) && k in v.exact
    ensures Coherent(TouchedExact(v, k), size)
    ensures Catalog(TouchedExact(v, k)) == Catalog(v)
  {
    var w := TouchedExact(v, k);
    SameForestKeeps(v, w, size);
    FreshStamp(v, w, ExactItem(k));
    forall e | e in EntryIds(v.exact) ensures e in EntryIds(w.exact) {
      var l :| l in v.exact && v.exact[l].entry == e;
      assert w.exact[l].entry == e;
    }
  }

  // An owner added to the ledger is counted once on each of its blocks.
  lemma BumpReferences(v: View, o: Owner, blocks: seq<nat>, references: map<nat, nat>, w: View)
    requires Referenced(v) && o !in v.owned && !o.Request?
    requires Bumped(v.references, blocks, references)
    requires w.references == references && w.owned == v.owned[o := blocks]
    ensures Referenced(w)
  {
    hide CacheHolders, RefCount;
    forall b: nat ensures RefCount(references, b) == |CacheHolders(w.owned, b)| {
      CacheHoldersInsert(v.owned, o, blocks, b);
    }
  }

  lemma CacheHoldersInsert(owned: Ledger, o: Owner, blocks: seq<nat>, b: nat)
    requires o !in owned && !o.Request?
    ensures |CacheHolders(owned[o := blocks], b)| == |CacheHolders(owned, b)| + if b in blocks then 1 else 0
  {
    assert CacheHolders(owned[o := blocks], b) == CacheHolders(owned, b) + (if b in blocks then {o} else {});
    assert o !in CacheHolders(owned, b);
  }

  lemma CacheHoldersRemove(owned: Ledger, o: Owner, b: nat)
    requires o in owned && !o.Request?
    ensures |CacheHolders(owned, b)| == |CacheHolders(owned - {o}, b)| + if b in owned[o] then 1 else 0
  {
    assert CacheHolders(owned, b) == CacheHolders(owned - {o}, b) + (if b in owned[o] then {o} else {});
    assert o !in CacheHolders(owned - {o}, b);
  }

  lemma DropReferences(v: View, o: Owner, references: map<nat, nat>, w: View)
    requires Referenced(v) && o in v.owned && !o.Request?
    requires Bumped(references, v.owned[o], v.references)
    requires forall b: nat | b in references :: references[b] > 0
    requires w.references == references && w.owned == v.owned - {o}
    ensures Referenced(w)
  {
    hide CacheHolders, RefCount;
    forall b: nat ensures RefCount(references, b) == |CacheHolders(w.owned, b)| { CacheHoldersRemove(v.owned, o, b); }
  }

  // A path that would name a new edge names no node yet.
  lemma NewPath(v: View, size: nat, parent: Option<nat>, tokens: seq<Token>)
    requires Forest(v, size) && |tokens| == size > 0
    requires parent.Some? ==> parent.value in v.nodes
    ensures ParentPath(v, parent) + tokens in v.index <==> Edge(parent, tokens) in v.edges
    ensures Edge(parent, tokens) in v.edges ==>
              && v.index[ParentPath(v, parent) + tokens] == v.edges[Edge(parent, tokens)]
              && v.paths[v.edges[Edge(parent, tokens)]] == ParentPath(v, parent) + tokens
  {
    var path := ParentPath(v, parent) + tokens;
    if Edge(parent, tokens) in v.edges {
      assert NodeOk(v, size, v.edges[Edge(parent, tokens)]);
    }
    if path in v.index {
      var j := v.index[path];
      assert NodeOk(v, size, j);
      var other := ParentPath(v, v.nodes[j].parent);
      assert other + v.nodes[j].tokens == path;
      assert |other| == |ParentPath(v, parent)|;
      assert other == path[..|other|] == ParentPath(v, parent);
      assert v.nodes[j].tokens == path[|other|..] == tokens;
      SamePathSameParent(v, size, v.nodes[j].parent, parent);
    }
  }

  lemma SamePathSameParent(v: View, size: nat, a: Option<nat>, b: Option<nat>)
    requires Forest(v, size) && size > 0
    requires a.Some? ==> a.value in v.nodes
    requires b.Some? ==> b.value in v.nodes
    requires ParentPath(v, a) == ParentPath(v, b)
    ensures a == b
  {
    if a.Some? { assert NodeOk(v, size, a.value); }
    if b.Some? { assert NodeOk(v, size, b.value); }
  }

  lemma GrowForest(v: View, size: nat, parent: Option<nat>, tokens: seq<Token>, block: nat, references: map<nat, nat>)
    requires Forest(v, size) && |tokens| == size > 0
    requires parent.Some? ==> parent.value in v.nodes
    requires Edge(parent, tokens) !in v.edges && ParentPath(v, parent) + tokens !in v.index
    ensures Forest(Grown(v, parent, tokens, block, references), size)
  {
    var w := Grown(v, parent, tokens, block, references);
    forall j {:trigger NodeOk(w, size, j)} | j in w.nodes ensures NodeOk(w, size, j) {
      GrowNodeOk(v, size, parent, tokens, block, references, j);
    }
  }

  lemma GrowNodeOk(v: View, size: nat, parent: Option<nat>, tokens: seq<Token>, block: nat, references: map<nat, nat>,
                   j: nat)
    requires Forest(v, size) && |tokens| == size > 0
    requires parent.Some? ==> parent.value in v.nodes
    requires Edge(parent, tokens) !in v.edges && ParentPath(v, parent) + tokens !in v.index
    requires j in v.nodes || j == v.nextNode
    ensures NodeOk(Grown(v, parent, tokens, block, references), size, j)
  {
    var w, i := Grown(v, parent, tokens, block, references), v.nextNode;
    if j != i {
      assert NodeOk(v, size, j);
      assert EdgeOf(w.nodes[j]) == EdgeOf(v.nodes[j]) != Edge(parent, tokens);
      if v.nodes[j].parent.Some? {
        var p := v.nodes[j].parent.value;
        assert v.nodes[p].children <= w.nodes[p].children;
      }
    }
  }

  lemma GrowOwns(v: View, size: nat, parent: Option<nat>, tokens: seq<Token>, block: nat, references: map<nat, nat>)
    requires Owns(v) && v.nextNode !in v.nodes && v.paths.Keys == v.nodes.Keys
    requires parent.Some? ==> parent.value in v.nodes
    ensures Owns(Grown(v, parent, tokens, block, references))
  {
  }

  lemma GrowStamped(v: View, parent: Option<nat>, tokens: seq<Token>, block: nat, references: map<nat, nat>)
    requires Stamped(v) && v.paths.Keys == v.nodes.Keys && v.nextNode !in v.nodes
    requires parent.Some? ==> parent.value in v.nodes
    ensures Stamped(Grown(v, parent, tokens, block, references))
  {
    FreshStamp(v, Grown(v, parent, tokens, block, references), NodeItem(v.nextNode));
  }

  lemma GrowKeeps(v: View, size: nat, parent: Option<nat>, tokens: seq<Token>, block: nat, references: map<nat, nat>)
    requires Coherent(v, size) && |tokens| == size > 0
    requires parent.Some? ==> parent.value in v.nodes
    requires Edge(parent, tokens) !in v.edges
    requires Bumped(v.references, [block], references)
    ensures Coherent(Grown(v, parent, tokens, block, references), size)
    ensures Catalog(Grown(v, parent, tokens, block, references))
         == Catalog(v)[ParentPath(v, parent) + tokens := block]
  {
    var w, i := Grown(v, parent, tokens, block, references), v.nextNode;
    assert ParentPath(v, parent) + tokens !in v.index by { NewPath(v, size, parent, tokens); }
    assert Forest(w, size) by { GrowForest(v, size, parent, tokens, block, references); }
    assert Owns(w) by { GrowOwns(v, size, parent, tokens, block, references); }
    assert Referenced(w) by { BumpReferences(v, Node(i), [block], references, w); }
    assert Stamped(w) by { GrowStamped(v, parent, tokens, block, references); }
    GrowCatalog(v, parent, tokens, block, references);
  }

  lemma GrowCatalog(v: View, parent: Option<nat>, tokens: seq<Token>, block: nat, references: map<nat, nat>)
    requires v.paths.Keys == v.nodes.Keys && v.nextNode !in v.nodes
    requires parent.Some? ==> parent.value in v.nodes
    requires forall p | p in v.index :: v.index[p] in v.nodes
    ensures var w := Grown(v, parent, tokens, block, references);
            && (forall p | p in w.index :: w.index[p] in w.nodes)
            && Catalog(w) == Catalog(v)[ParentPath(v, parent) + tokens := block]
  {
    var w := Grown(v, parent, tokens, block, references);
    forall p | p in v.index ensures w.nodes[v.index[p]].block == v.nodes[v.index[p]].block { }
  }

  lemma GrowStamps(v: View, parent: Option<nat>, tokens: seq<Token>, block: nat, references: map<nat, nat>)
    requires v.paths.Keys == v.nodes.Keys && v.nextNode !in v.nodes
    requires parent.Some? ==> parent.value in v.nodes
    requires forall p | p in v.index :: v.index[p] in v.nodes
    requires forall p | p in Grown(v, parent, tokens, block, references).index ::
               Grown(v, parent, tokens, block, references).index[p] in Grown(v, parent, tokens, block, references).nodes
    ensures Stamps(Grown(v, parent, tokens, block, references))
         == Stamps(v)[ParentPath(v, parent) + tokens := v.clock + 1]
  {
    var w := Grown(v, parent, tokens, block, references);
    var path := ParentPath(v, parent) + tokens;
    assert w.index == v.index[path := v.nextNode] && w.nodes[v.nextNode].lastAccess == v.clock + 1;
    forall i | i in v.nodes ensures i in w.nodes && w.nodes[i].lastAccess == v.nodes[i].lastAccess { }
    hide Grown, ParentPath;
    assert Stamps(w).Keys == w.index.Keys;
  }

  lemma AddExactOwns(v: View, key: seq<Token>, blocks: seq<nat>, next: Token, references: map<nat, nat>)
    requires Owns(v) && key !in v.exact
    ensures Owns(WithExact(v, key, blocks, next, references)) && Exact(v.nextEntry) !in v.owned
  {
    AddExactIds(v, key, blocks, next, references);
    hide EntryIds;
  }

  lemma AddExactIds(v: View, key: seq<Token>, blocks: seq<nat>, next: Token, references: map<nat, nat>)
    requires key !in v.exact
    ensures EntryIds(WithExact(v, key, blocks, next, references).exact) == EntryIds(v.exact) + {v.nextEntry}
  {
    var w := WithExact(v, key, blocks, next, references);
    forall e | e in EntryIds(v.exact) ensures e in EntryIds(w.exact) {
      var l :| l in v.exact && v.exact[l].entry == e;
      assert w.exact[l].entry == e;
    }
    assert w.exact[key].entry == v.nextEntry;
  }

  lemma AddExactKeeps(v: View, size: nat, key: seq<Token>, blocks: seq<nat>, next: Token, references: map<nat, nat>)
    requires Coherent(v, size) && key !in v.exact
    requires Bumped(v.references, blocks, references)
    ensures Coherent(WithExact(v, key, blocks, next, references), size)
    ensures Catalog(WithExact(v, key, blocks, next, references)) == Catalog(v)
  {
    var w := WithExact(v, key, blocks, next, references);
    AddExactOwns(v, key, blocks, next, references);
    assert Referenced(w) by { BumpReferences(v, Exact(v.nextEntry), blocks, references, w); }
    assert Stamped(w) by { FreshStamp(v, w, ExactItem(key)); }
    SameForestKeeps(v, w, size);
  }

  lemma DropExactOwns(v: View, key: seq<Token>, references: map<nat, nat>)
    requires Owns(v) && key in v.exact && v.paths.Keys == v.nodes.Keys
    ensures Owns(Without(v, ExactItem(key), references))
  {
    var w := Without(v, ExactItem(key), references);
    forall e | Exact(e) in w.owned ensures e in EntryIds(w.exact) {
      var l :| l in v.exact && v.exact[l].entry == e;
      assert l in w.exact && w.exact[l].entry == e;
    }
  }

  lemma DropExactKeeps(v: View, size: nat, key: seq<Token>, references: map<nat, nat>)
    requires Coherent(v, size) && key in v.exact
    requires Bumped(references, v.exact[key].blocks, v.references)
    requires forall b: nat | b in references :: references[b] > 0
    ensures Coherent(Without(v, ExactItem(key), references), size)
    ensures Catalog(Without(v, ExactItem(key), references)) == Catalog(v)
  {
    var w := Without(v, ExactItem(key), references);
    DropExactOwns(v, key, references);
    assert Referenced(w) by { DropReferences(v, Exact(v.exact[key].entry), references, w); }
    assert Stamped(w) by { FewerStamps(v, w); }
    SameForestKeeps(v, w, size);
  }

  lemma DropNodeForest(v: View, size: nat, i: nat, references: map<nat, nat>)
    requires Forest(v, size) && i in v.nodes && v.nodes[i].children == {}
    ensures Forest(Without(v, NodeItem(i), references), size)
    ensures Catalog(Without(v, NodeItem(i), references)) == Catalog(v) - {v.paths[i]}
  {
    var w := Without(v, NodeItem(i), references);
    assert NodeOk(v, size, i);
    forall j {:trigger NodeOk(w, size, j)} | j in w.nodes ensures NodeOk(w, size, j) {
      DropNodeOk(v, size, i, references, j);
    }
    hide NodeOk;
    forall e | e in w.edges ensures v.edges[e] != i { }
    forall p | p in w.index ensures v.index[p] != i { }
  }

  lemma DropNodeOk(v: View, size: nat, i: nat, references: map<nat, nat>, j: nat)
    requires Forest(v, size) && i in v.nodes && v.nodes[i].children == {}
    requires j in v.nodes && j != i
    ensures NodeOk(Without(v, NodeItem(i), references), size, j)
  {
    var w := Without(v, NodeItem(i), references);
    assert NodeOk(v, size, i) && NodeOk(v, size, j);
    assert v.nodes[j].parent != Some(i) && EdgeOf(v.nodes[j]) != EdgeOf(v.nodes[i]);
    assert EdgeOf(w.nodes[j]) == EdgeOf(v.nodes[j]);
    assert w.nodes[j].children == v.nodes[j].children - (if v.nodes[i].parent == Some(j) then {i} else {});
    forall c | c in w.nodes[j].children ensures c in w.nodes && w.nodes[c].parent == Some(j) { }
  }

  lemma DropNodeOwns(v: View, i: nat, references: map<nat, nat>)
    requires Owns(v) && i in v.nodes && v.paths.Keys == v.nodes.Keys
    ensures Owns(Without(v, NodeItem(i), references))
  {
  }

  lemma DropNodeKeeps(v: View, size: nat, i: nat, references: map<nat, nat>)
    requires Coherent(v, size) && i in v.nodes && v.nodes[i].children == {}
    requires Bumped(references, [v.nodes[i].block], v.references)
    requires forall b: nat | b in references :: references[b] > 0
    ensures Coherent(Without(v, NodeItem(i), references), size)
    ensures Catalog(Without(v, NodeItem(i), references)) == Catalog(v) - {v.paths[i]}
  {
    var w := Without(v, NodeItem(i), references);
    assert Referenced(w) by { DropReferences(v, Node(i), references, w); }
    assert Stamped(w) by { FewerStamps(v, w); }
    assert Owns(w) by { DropNodeOwns(v, i, references); }
    DropNodeForest(v, size, i, references);
  }
}
