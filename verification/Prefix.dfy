// The block-aligned radix prefix cache of engine/cache/prefix.py.
module PrefixCaching {
  import opened Common
  import opened Ownership
  import opened BlockAllocation
  import opened Paging
  import opened PrefixForest
  import opened Reclaiming

  datatype PrefixMatch = PrefixMatch(blocks: seq<nat>, tokenCount: nat, nextToken: Option<Token>, exact: bool)

  type Entries = map<seq<Token>, ExactEntry>

  // Complete blocks that still leave one token of the prompt to compute.
  function ReusableBlocks(tokens: seq<Token>, size: nat): (k: nat)
    requires size > 0
    ensures (k == 0 || k * size < |tokens|) && |tokens| <= k * size + size
  {
    if tokens == [] then 0
    else
      DivBounds(|tokens| - 1, size);
      (|tokens| - 1) / size
  }

  function LeavesAndEntries(nodes: map<nat, PrefixNode>, exact: Entries): (r: set<Item>)
    ensures forall i :: NodeItem(i) in r <==> i in nodes && nodes[i].children == {}
    ensures forall k :: ExactItem(k) in r <==> k in exact
  {
    (set i | i in nodes && nodes[i].children == {} :: NodeItem(i)) + (set k | k in exact :: ExactItem(k))
  }

  lemma BlockFits(k: nat, length: nat, size: nat)
    requires size > 0 && k < length / size
    ensures 0 <= k * size <= (k + 1) * size == k * size + size <= length
  {
    DivBounds(length, size);
    MulMono(k + 1, length / size, size);
  }

  lemma LeavesOneToken(tokens: seq<Token>, k: nat, size: nat)
    requires size > 0 && k <= ReusableBlocks(tokens, size)
    ensures 0 < k ==> k * size < |tokens|
  {
    if 0 < k { BlockFits(k - 1, |tokens| - 1, size); }
  }

  lemma ReusableFits(tokens: seq<Token>, size: nat)
    requires size > 0
    ensures ReusableBlocks(tokens, size) <= |tokens| / size
  {
    if tokens != [] && ReusableBlocks(tokens, size) > 0 {
      var k := ReusableBlocks(tokens, size);
      BlockFits(k - 1, |tokens| - 1, size);
      DivBounds(|tokens|, size);
      assert (|tokens| / size + 1) * size == (|tokens| / size) * size + size;
      MulLess(k, |tokens| / size + 1, size);
    }
  }

  // The first k blocks' worth of tokens.
  function Blocks(tokens: seq<Token>, k: nat, size: nat): seq<Token> {
    if k * size <= |tokens| then tokens[..k * size] else tokens
  }

  // `blocks` are the catalog's blocks for the first |blocks| block-aligned prefixes.
  ghost predicate Covers(catalog: map<seq<Token>, nat>, tokens: seq<Token>, size: nat, blocks: seq<nat>) {
    forall j: nat | 0 < j <= |blocks| ::
      && Blocks(tokens, j, size) in catalog
      && catalog[Blocks(tokens, j, size)] == blocks[j - 1]
  }

  // The catalog after offering the first k complete blocks of a sequence: entries already
  // present win, so a published prefix keeps its first physical block.
  ghost function Offered(catalog: map<seq<Token>, nat>, tokens: seq<Token>, blocks: seq<nat>, size: nat, k: nat)
    : map<seq<Token>, nat>
    requires size > 0 && k <= |tokens| / size && k <= |blocks|
  {
    if k == 0 then catalog
    else
      var before := Offered(catalog, tokens, blocks, size, k - 1);
      var path := Blocks(tokens, k, size);
      if path in before then before else before[path := blocks[k - 1]]
  }

  // The nodes along the first n blocks of a path, and only they, became the most recently used
  // items, each more recently than the ones above it.
  ghost predicate WalkTouched(before: View, after: View, tokens: seq<Token>, size: nat, n: nat) {
    && after == before.(nodes := after.nodes, clock := before.clock + n)
    && after.nodes.Keys == before.nodes.Keys == before.paths.Keys
    && (forall i | i in before.nodes ::
          && after.nodes[i] == before.nodes[i].(lastAccess := after.nodes[i].lastAccess)
          && (after.nodes[i] == before.nodes[i] || OnPath(before.paths[i], tokens, size, n)))
    && forall j: nat | 0 < j <= n ::
         var p := Blocks(tokens, j, size);
         && p in before.index && before.index[p] in after.nodes
         && after.nodes[before.index[p]].lastAccess == before.clock + j
  }

  // Publishing refreshes the prefixes along the path, the deepest one last, and no others: `a` and
  // `b` are the access stamps before and after `n` blocks.
  ghost predicate PathRefreshed(a: map<seq<Token>, nat>, b: map<seq<Token>, nat>, tokens: seq<Token>, size: nat,
                                clock: nat, n: nat)
  {
    && (forall j: nat | 0 < j <= n :: Blocks(tokens, j, size) in b && b[Blocks(tokens, j, size)] == clock + j)
    && (forall p | p in a :: p in b && (b[p] == a[p] || OnPath(p, tokens, size, n)))
    && (forall p | p in b :: p in a || OnPath(p, tokens, size, n))
  }

  lemma NothingRefreshed(a: map<seq<Token>, nat>, tokens: seq<Token>, size: nat, clock: nat)
    ensures PathRefreshed(a, a, tokens, size, clock, 0)
  {
  }

  lemma RefreshedMore(a: map<seq<Token>, nat>, b: map<seq<Token>, nat>, tokens: seq<Token>, size: nat, clock: nat,
                      k: nat)
    requires PathRefreshed(a, b, tokens, size, clock, k) && size > 0 && (k + 1) * size <= |tokens|
    ensures PathRefreshed(a, b[Blocks(tokens, k + 1, size) := clock + k + 1], tokens, size, clock, k + 1)
  {
    var last := Blocks(tokens, k + 1, size);
    forall j: nat | 0 < j <= k ensures Blocks(tokens, j, size) != last { BlocksDiffer(tokens, j, k, size); }
    hide Blocks;
    forall p | OnPath(p, tokens, size, k) || p == last ensures OnPath(p, tokens, size, k + 1) {
      if p != last { var j: nat :| 0 < j <= k && p == Blocks(tokens, j, size); }
    }
  }

  lemma BlocksDiffer(tokens: seq<Token>, j: nat, k: nat, size: nat)
    requires j <= k && size > 0 && (k + 1) * size <= |tokens|
    ensures Blocks(tokens, j, size) != Blocks(tokens, k + 1, size)
  {
    MulMono(j, k, size);
    assert (k + 1) * size == k * size + size;
    assert |Blocks(tokens, j, size)| == j * size < |Blocks(tokens, k + 1, size)|;
  }

  ghost predicate OnPath(path: seq<Token>, tokens: seq<Token>, size: nat, n: nat) {
    exists j: nat :: 0 < j <= n && path == Blocks(tokens, j, size)
  }

  lemma StartOfWalk(v: View, tokens: seq<Token>, size: nat)
    requires v.paths.Keys == v.nodes.Keys && forall p | p in v.index :: v.index[p] in v.nodes
    ensures WalkTouched(v, v, tokens, size, 0) && Blocks(tokens, 0, size) == [] && Covers(Catalog(v), tokens, size, [])
  {
  }

  lemma FirstBlocks(tokens: seq<Token>, size: nat)
    ensures Blocks(tokens, 0, size) == []
  {
  }

  lemma NextBlocks(tokens: seq<Token>, k: nat, size: nat)
    requires (k + 1) * size <= |tokens| && k * size <= (k + 1) * size
    ensures Blocks(tokens, k + 1, size) == Blocks(tokens, k, size) + tokens[k * size..(k + 1) * size]
  {
  }

  lemma CoversMore(catalog: map<seq<Token>, nat>, tokens: seq<Token>, size: nat, blocks: seq<nat>, block: nat)
    requires Covers(catalog, tokens, size, blocks)
    requires Blocks(tokens, |blocks| + 1, size) in catalog && catalog[Blocks(tokens, |blocks| + 1, size)] == block
    ensures Covers(catalog, tokens, size, blocks + [block])
  {
  }

  lemma TouchedMore(before: View, middle: View, after: View, tokens: seq<Token>, size: nat, k: nat, i: nat)
    requires WalkTouched(before, middle, tokens, size, k) && size > 0 && (k + 1) * size <= |tokens|
    requires Blocks(tokens, k + 1, size) in before.index && before.index[Blocks(tokens, k + 1, size)] == i
    requires i in before.paths && before.paths[i] == Blocks(tokens, k + 1, size)
    requires Forest(before, size)
    requires i in middle.nodes && after == TouchedNode(middle, i)
    ensures WalkTouched(before, after, tokens, size, k + 1)
  {
    assert OnPath(before.paths[i], tokens, size, k + 1);
    forall x | x in before.nodes && OnPath(before.paths[x], tokens, size, k)
      ensures OnPath(before.paths[x], tokens, size, k + 1)
    {
      var j: nat :| 0 < j <= k && before.paths[x] == Blocks(tokens, j, size);
    }
    forall j: nat | 0 < j <= k ensures before.index[Blocks(tokens, j, size)] != i {
      MulMono(j, k, size);
      assert (k + 1) * size == k * size + size;
      assert |Blocks(tokens, j, size)| == j * size < |Blocks(tokens, k + 1, size)|;
    }
  }

  // Same entries, whatever their access stamps.
  ghost predicate SameEntries(before: Entries, after: Entries) {
    && before.Keys == after.Keys
    && forall k | k in before :: after[k] == before[k].(lastAccess := after[k].lastAccess)
  }

  // New cache owners may have appeared on `blocks`; everything else is as before.
  ghost predicate LedgerGrew(before: Ledger, after: Ledger, blocks: seq<nat>) {
    && (forall o | o in before :: o in after && after[o] == before[o])
    && (forall o | o in after && o !in before :: !o.Request? && forall b | b in after[o] :: b in blocks)
  }

  // Only cache owners disappeared.
  ghost predicate LedgerShrank(before: Ledger, after: Ledger) {
    && (forall o | o in after :: o in before && after[o] == before[o])
    && (forall o | o in before && o !in after :: !o.Request?)
  }

  ghost predicate SubCatalog(a: map<seq<Token>, nat>, b: map<seq<Token>, nat>) {
    forall p | p in a :: p in b && a[p] == b[p]
  }

  ghost predicate SubEntries(a: Entries, b: Entries) {
    forall k | k in a :: k in b && a[k] == b[k]
  }

  class PrefixCache {
    const manager: KVBlockManager
    const maxBlocks: nat
    var nodes: map<nat, PrefixNode>
    var edges: map<Edge, nat>
    var exact: Entries
    var references: map<nat, nat>
    var nextNode: nat
    var nextEntry: nat
    var clock: nat
    ghost var paths: map<nat, seq<Token>>
    ghost var index: map<seq<Token>, nat>

    ghost function Snapshot(): View
      reads this, manager, manager.allocator
    {
      View(nodes, edges, exact, references, nextNode, nextEntry, clock, paths, index, manager.allocator.allocations)
    }

    // The invariant without the size bound, which publishing may exceed for a moment.
    ghost predicate Sound()
      reads this, manager, manager.allocator
    {
      manager.Valid() && Coherent(Snapshot(), manager.allocator.blockSize)
    }

    ghost predicate Valid()
      reads this, manager, manager.allocator
    {
      Sound() && |references| <= maxBlocks
    }

    ghost function Published(): map<seq<Token>, nat>
      reads this, manager, manager.allocator
      requires Sound()
    {
      Catalog(Snapshot())
    }

    ghost function Accesses(): map<seq<Token>, nat>
      reads this, manager, manager.allocator
      requires Sound()
    {
      Stamps(Snapshot())
    }

    constructor (manager: KVBlockManager, maxBlocks: nat)
      requires manager.Valid() && forall o | o in manager.allocator.allocations :: o.Request?
      ensures this.manager == manager && this.maxBlocks == maxBlocks
      ensures Valid() && Published() == map[] && exact == map[]
    {
      this.manager, this.maxBlocks := manager, maxBlocks;
      nodes, edges, exact, references := map[], map[], map[], map[];
      nextNode, nextEntry, clock := 0, 0, 0;
      paths, index := map[], map[];
      new;
      forall b: nat ensures CacheHolders(manager.allocator.allocations, b) == {} { }
    }

    method TouchNode(i: nat)
      requires Sound() && i in nodes
      modifies `nodes, `clock
      ensures Snapshot() == TouchedNode(old(Snapshot()), i)
      ensures Sound() && Published() == old(Published())
    {
      hide Coherent;
      TouchNodeKeeps(Snapshot(), manager.allocator.blockSize, i);
      clock := clock + 1;
      nodes := nodes[i := nodes[i].(lastAccess := clock)];
    }

    method TouchExact(k: seq<Token>)
      requires Sound() && k in exact
      modifies `exact, `clock
      ensures Snapshot() == TouchedExact(old(Snapshot()), k)
      ensures Sound() && Published() == old(Published())
    {
      hide Coherent;
      TouchExactKeeps(Snapshot(), manager.allocator.blockSize, k);
      clock := clock + 1;
      exact := exact[k := exact[k].(lastAccess := clock)];
    }

    // The longest published prefix of complete blocks, always leaving one prompt token; or
    // the whole prompt when an exact entry may be used.
    method Lookup(tokens: seq<Token>, allowExact: bool) returns (m: PrefixMatch)
      requires Valid()
      modifies `nodes, `exact, `clock
      ensures Valid() && Published() == old(Published()) && SameEntries(old(exact), exact)
      ensures m.exact <==> allowExact && tokens in old(exact)
      ensures if m.exact then Snapshot() == TouchedExact(old(Snapshot()), tokens)
              else WalkTouched(old(Snapshot()), Snapshot(), tokens, manager.allocator.blockSize, |m.blocks|)
      ensures m.exact ==> m == PrefixMatch(exact[tokens].blocks, |tokens|, Some(exact[tokens].nextToken), true)
      ensures !m.exact ==>
        var size := manager.allocator.blockSize;
        && m.nextToken == None && m.tokenCount == |m.blocks| * size
        && |m.blocks| <= ReusableBlocks(tokens, size)
        && (m.blocks != [] ==> m.tokenCount < |tokens|)
        && Covers(Published(), tokens, size, m.blocks)
        && (forall j: nat | |m.blocks| < j <= ReusableBlocks(tokens, size) ::
              Blocks(tokens, j, size) !in Published())
    {
      hide Coherent, WalkTouched;
      if allowExact && tokens in exact {
        TouchExact(tokens);
        return PrefixMatch(exact[tokens].blocks, |tokens|, Some(exact[tokens].nextToken), true);
      }
      var size := manager.allocator.blockSize;
      ReusableFits(tokens, size);
      var blocks := Walk(tokens, ReusableBlocks(tokens, size));
      LeavesOneToken(tokens, |blocks|, size);
      return PrefixMatch(blocks, |blocks| * size, None, false);
    }

    // Follows edges from the root while they exist, for at most `complete` blocks.
    method Walk(tokens: seq<Token>, complete: nat) returns (blocks: seq<nat>)
      requires Valid() && complete <= |tokens| / manager.allocator.blockSize
      modifies `nodes, `clock
      ensures Valid() && Published() == old(Published())
      ensures |blocks| <= complete && Covers(Published(), tokens, manager.allocator.blockSize, blocks)
      ensures forall j: nat | |blocks| < j <= complete ::
                Blocks(tokens, j, manager.allocator.blockSize) !in Published()
      ensures WalkTouched(old(Snapshot()), Snapshot(), tokens, manager.allocator.blockSize, |blocks|)
    {
      hide Coherent, WalkTouched, Forest, Covers, Blocks, Catalog, Counts, FreeListOf, WellFormed, Mirrors;
      ghost var before, catalog := Snapshot(), Published();
      var size := manager.allocator.blockSize;
      var parent: Option<nat> := None;
      blocks := [];
      CoherentFacts(before, size);
      StartOfWalk(before, tokens, size);
      for k := 0 to complete
        modifies `nodes, `clock
        invariant Valid() && Published() == catalog
        invariant |blocks| == k && Covers(catalog, tokens, size, blocks)
        invariant WalkTouched(before, Snapshot(), tokens, size, k)
        invariant OnWay(tokens, k, parent)
      {
        ghost var middle := Snapshot();
        var next := NextOnPath(tokens, k, parent);
        if next.None? {
          CoherentFacts(Snapshot(), size);
          NothingLongerPublished(Snapshot(), size, tokens, k + 1);
          return;
        }
        TouchedMore(before, middle, Snapshot(), tokens, size, k, next.value);
        CoversMore(catalog, tokens, size, blocks, nodes[next.value].block);
        blocks := blocks + [nodes[next.value].block];
        parent := next;
      }
    }

    // `parent` is where the first k blocks lead from the root.
    ghost predicate OnWay(tokens: seq<Token>, k: nat, parent: Option<nat>)
      reads this, manager, manager.allocator
    {
      && (parent.Some? ==> parent.value in nodes && parent.value in paths)
      && ParentPath(Snapshot(), parent) == Blocks(tokens, k, manager.allocator.blockSize)
    }

    // One edge further along the path, if there is one.
    method NextOnPath(tokens: seq<Token>, k: nat, parent: Option<nat>) returns (next: Option<nat>)
      requires Valid() && k < |tokens| / manager.allocator.blockSize && OnWay(tokens, k, parent)
      modifies `nodes, `clock
      ensures Valid() && Published() == old(Published()) && (k + 1) * manager.allocator.blockSize <= |tokens|
      ensures var path := Blocks(tokens, k + 1, manager.allocator.blockSize);
              && (next.Some? <==> path in Published() && path in index)
              && (next.None? ==> path !in index && Snapshot() == old(Snapshot()))
              && (next.Some? ==> && OnWay(tokens, k + 1, next) && index[path] == next.value && paths[next.value] == path
                                 && nodes[next.value].block == Published()[path])
      ensures next.Some? ==> next.value in old(nodes) && Snapshot() == TouchedNode(old(Snapshot()), next.value)
    {
      hide Coherent, Forest, Blocks, Counts, FreeListOf, WellFormed, Mirrors;
      var size := manager.allocator.blockSize;
      BlockFits(k, |tokens|, size);
      NextBlocks(tokens, k, size);
      next := Step(parent, tokens[k * size..(k + 1) * size]);
      CoherentFacts(Snapshot(), size);
    }

    // The child along one token block, if there is one.
    method Step(parent: Option<nat>, tokenBlock: seq<Token>) returns (next: Option<nat>)
      requires Valid() && |tokenBlock| == manager.allocator.blockSize
      requires parent.Some? ==> parent.value in nodes
      modifies `nodes, `clock
      ensures Valid() && Published() == old(Published())
      ensures var path := ParentPath(old(Snapshot()), parent) + tokenBlock;
              && (next.Some? <==> path in Published())
              && (next.Some? ==> next.value in nodes && paths[next.value] == path
                                 && path in index && index[path] == next.value
                                 && nodes[next.value].block == Published()[path])
      ensures next.None? ==> Snapshot() == old(Snapshot())
      ensures next.Some? ==> next.value in old(nodes) && Snapshot() == TouchedNode(old(Snapshot()), next.value)
    {
      hide NodeOk, Owns, Referenced, Stamped;
      NewPath(Snapshot(), manager.allocator.blockSize, parent, tokenBlock);
      if Edge(parent, tokenBlock) !in edges {
        return None;
      }
      next := Some(edges[Edge(parent, tokenBlock)]);
      TouchNode(next.value);
    }

    method Reference(blocks: seq<nat>)
      requires Distinct(blocks) && forall b: nat | b in references :: references[b] > 0
      modifies `references
      ensures Bumped(old(references), blocks, references)
    {
      for i := 0 to |blocks|
        invariant Bumped(old(references), blocks[..i], references)
      {
        assert blocks[..i + 1] == blocks[..i] + [blocks[i]] && blocks[i] !in blocks[..i];
        references := references[blocks[i] := RefCount(references, blocks[i]) + 1];
      }
      assert blocks[..|blocks|] == blocks;
    }

    method Unreference(blocks: seq<nat>)
      requires Distinct(blocks) && forall b: nat | b in references :: references[b] > 0
      requires forall b: nat | b in blocks :: b in references
      modifies `references
      ensures Bumped(references, blocks, old(references))
      ensures forall b: nat | b in references :: references[b] > 0
    {
      for i := 0 to |blocks|
        invariant Bumped(references, blocks[..i], old(references))
        invariant forall b: nat | b in references :: references[b] > 0
      {
        assert blocks[..i + 1] == blocks[..i] + [blocks[i]] && blocks[i] !in blocks[..i] && blocks[i] in blocks;
        assert RefCount(references, blocks[i]) == RefCount(old(references), blocks[i]) > 0;
        var remaining := references[blocks[i]] - 1;
        if remaining > 0 {
          references := references[blocks[i] := remaining];
        } else {
          references := references - {blocks[i]};
        }
      }
      assert blocks[..|blocks|] == blocks;
    }

    // Attaches a cache owner to live blocks and counts it in the reference map.
    method Own(o: Owner, blocks: seq<nat>) returns (r: Reply<()>)
      requires manager.Valid() && !o.Request? && o !in manager.allocator.allocations && Distinct(blocks)
      requires forall b: nat | b in references :: references[b] > 0
      requires forall b: nat | b in blocks ::
                 b < manager.allocator.numBlocks && Holders(manager.allocator.allocations, b) != {}
      modifies `references, manager.allocator
      ensures manager.Valid() && !r.Exhausted? && (r.Raised? <==> blocks == [])
      ensures manager.allocator.allocations
           == if r.Ok? then old(manager.allocator.allocations)[o := blocks] else old(manager.allocator.allocations)
      ensures if r.Ok? then Bumped(old(references), blocks, references) else references == old(references)
      ensures LedgerGrew(old(manager.allocator.allocations), manager.allocator.allocations, blocks)
      ensures references.Keys <= old(references.Keys) + Members(blocks)
      ensures manager.allocator.freeBlocks == old(manager.allocator.freeBlocks)
    {
      hide Counts, FreeListOf, WellFormed, Mirrors, Bumped, LedgerGrew;
      ghost var ledger := manager.allocator.allocations;
      LedgerGrewOne(ledger, o, blocks);
      LedgerGrewNone(ledger);
      var attached := manager.allocator.Attach(o, blocks);
      MirrorsUnchanged(ledger, manager.allocator.allocations, manager.requests, manager.allocator.blockSize);
      if !attached.Ok? {
        return Raised;
      }
      Reference(blocks);
      BumpedKeys(old(references), blocks, references);
      return Ok(());
    }

    // One radix step of publishing: touch the child along this block, or create it.
    method RetainBlock(parent: Option<nat>, tokenBlock: seq<Token>, block: nat) returns (i: nat, added: bool)
      requires Sound() && |tokenBlock| == manager.allocator.blockSize
      requires parent.Some? ==> parent.value in nodes
      requires block < manager.allocator.numBlocks && Holders(manager.allocator.allocations, block) != {}
      modifies `nodes, `edges, `references, `nextNode, `clock, `paths, `index, manager.allocator
      ensures Sound() && i in nodes
      ensures var path := ParentPath(old(Snapshot()), parent) + tokenBlock;
              && paths[i] == path
              && added == (path !in old(Published()))
              && clock == old(clock) + 1 && Accesses() == old(Accesses())[path := clock]
              && Published() == if added then old(Published())[path := block] else old(Published())
      ensures LedgerGrew(old(manager.allocator.allocations), manager.allocator.allocations, [block])
      ensures manager.allocator.freeBlocks == old(manager.allocator.freeBlocks)
      ensures references.Keys <= old(references.Keys) + Members([block])
    {
      hide Coherent, Counts, FreeListOf, WellFormed, Mirrors, Forest, Catalog, Stamps, NodeOk;
      ghost var size, before := manager.allocator.blockSize, Snapshot();
      CoherentFacts(before, size);
      LedgerGrewNone(before.owned);
      NewPath(before, size, parent, tokenBlock);
      CatalogKeys(before);
      if Edge(parent, tokenBlock) in edges {
        i, added := edges[Edge(parent, tokenBlock)], false;
        TouchStamps(before, size, i);
        TouchNode(i);
        return;
      }
      i := CreateNode(parent, tokenBlock, block);
      added := true;
      CoherentFacts(Snapshot(), size);
      GrowCatalog(before, parent, tokenBlock, block, references);
      GrowStamps(before, parent, tokenBlock, block, references);
    }

    method CreateNode(parent: Option<nat>, tokenBlock: seq<Token>, block: nat) returns (i: nat)
      requires Sound() && |tokenBlock| == manager.allocator.blockSize
      requires parent.Some? ==> parent.value in nodes
      requires block < manager.allocator.numBlocks && Holders(manager.allocator.allocations, block) != {}
      requires Edge(parent, tokenBlock) !in edges
      modifies `nodes, `edges, `references, `nextNode, `clock, `paths, `index, manager.allocator
      ensures Sound() && i == old(nextNode)
      ensures Snapshot() == Grown(old(Snapshot()), parent, tokenBlock, block, references)
      ensures LedgerGrew(old(manager.allocator.allocations), manager.allocator.allocations, [block])
      ensures manager.allocator.freeBlocks == old(manager.allocator.freeBlocks)
      ensures references.Keys <= old(references.Keys) + Members([block])
    {
      hide Coherent, Forest, Mirrors, Bumped, Catalog, LedgerGrew, WithChild, Counts, FreeListOf, WellFormed;
      ghost var size, before := manager.allocator.blockSize, Snapshot();
      CoherentFacts(before, size);
      i := nextNode;
      nextNode := nextNode + 1;
      var attached := Own(Node(i), [block]);
      Link(parent, tokenBlock, block, i);
      GrowKeeps(before, size, parent, tokenBlock, block, references);
    }

    method Link(parent: Option<nat>, tokenBlock: seq<Token>, block: nat, i: nat)
      requires paths.Keys == nodes.Keys && (parent.Some? ==> parent.value in nodes)
      modifies `nodes, `edges, `clock, `paths, `index
      ensures var path := ParentPath(old(Snapshot()), parent) + tokenBlock;
              && clock == old(clock) + 1
              && edges == old(edges)[Edge(parent, tokenBlock) := i]
              && nodes == WithChild(old(nodes), parent, i)[i := PrefixNode(parent, tokenBlock, block, {}, clock)]
              && paths == old(paths)[i := path] && index == old(index)[path := i]
    {
      ghost var path := ParentPath(Snapshot(), parent) + tokenBlock;
      paths, index := paths[i := path], index[path := i];
      clock := clock + 1;
      nodes := WithChild(nodes, parent, i)[i := PrefixNode(parent, tokenBlock, block, {}, clock)];
      edges := edges[Edge(parent, tokenBlock) := i];
    }

    // An exact entry owns every block of the prompt together with its first-token decision.
    method RetainExact(key: seq<Token>, blocks: seq<nat>, next: Token) returns (r: Reply<nat>)
      requires Sound() && key !in exact && Distinct(blocks)
      requires forall b: nat | b in blocks ::
                 b < manager.allocator.numBlocks && Holders(manager.allocator.allocations, b) != {}
      modifies `exact, `references, `nextEntry, `clock, manager.allocator
      ensures Sound() && Published() == old(Published()) && Accesses() == old(Accesses())
      ensures !r.Exhausted? && (r.Raised? <==> blocks == [])
      ensures r.Ok? ==> && key in exact && clock == old(clock) + 1
                        && exact[key] == ExactEntry(exact[key].entry, blocks, next, clock)
                        && exact == old(exact)[key := exact[key]]
      ensures !r.Ok? ==> (&& exact == old(exact) && references == old(references)
                          && manager.allocator.allocations == old(manager.allocator.allocations))
      ensures LedgerGrew(old(manager.allocator.allocations), manager.allocator.allocations, blocks)
      ensures manager.allocator.freeBlocks == old(manager.allocator.freeBlocks)
      ensures references.Keys <= old(references.Keys) + Members(blocks)
    {
      hide Coherent, Mirrors, Bumped, Catalog, LedgerGrew;
      ghost var size, before := manager.allocator.blockSize, Snapshot();
      CoherentFacts(before, size);
      var e := nextEntry;
      nextEntry := nextEntry + 1;
      var attached := Own(Exact(e), blocks);
      if attached.Raised? {
        SkippedEntryKeeps(before, size);
        return Raised;
      }
      AddExactKeeps(before, size, key, blocks, next, references);
      clock := clock + 1;
      exact := exact[key := ExactEntry(e, blocks, next, clock)];
      assert Snapshot() == WithExact(before, key, blocks, next, references);
      return Ok(e);
    }

    // Everything `publish` retains, before the size limit is applied.
    method Retain(tokens: seq<Token>, id: string, next: Option<Token>) returns (r: Reply<nat>)
      requires Valid() && id in manager.requests
      modifies this, manager.allocator
      ensures Sound() && !r.Exhausted?
      ensures r.Raised? <==> next.Some? && tokens == [] && [] !in old(exact)
      ensures Kept(old(Snapshot()), Snapshot(), tokens, manager.requests[id].blocks, manager.allocator.blockSize,
                   if r.Ok? then next else None, maxBlocks)
      ensures r.Ok? ==>
        Refreshed(old(Snapshot()), Snapshot(), tokens, manager.requests[id].blocks, manager.allocator.blockSize)
      ensures r.Ok? ==> r.value == |Published()| - |old(Published())|
      ensures manager.allocator.freeBlocks == old(manager.allocator.freeBlocks)
    {
      hide Coherent, Forest, Counts, FreeListOf, LedgerGrew, Retained, Kept, Catalog, Stamps, Refreshed, Offered;
      var size := manager.allocator.blockSize;
      ghost var before := Snapshot();
      var published := RetainPath(tokens, id);
      RetainedIsKept(before, Snapshot(), tokens, manager.requests[id].blocks, size, maxBlocks, next);
      if next.Some? && BlocksFor(|tokens|, size) <= maxBlocks && tokens !in exact {
        var ok := RetainEntry(tokens, id, next.value, before);
        if !ok {
          return Raised;
        }
      }
      return Ok(published);
    }

    // The exact entry behind the path, for which the prompt must have a block.
    method RetainEntry(tokens: seq<Token>, id: string, next: Token, ghost before: View) returns (ok: bool)
      requires Sound() && id in manager.requests && tokens !in exact && exact == before.exact
      requires BlocksFor(|tokens|, manager.allocator.blockSize) <= maxBlocks
      requires Kept(before, Snapshot(), tokens, manager.requests[id].blocks, manager.allocator.blockSize, None,
                    maxBlocks)
      requires Refreshed(before, Snapshot(), tokens, manager.requests[id].blocks, manager.allocator.blockSize)
      modifies `exact, `references, `nextEntry, `clock, manager.allocator
      ensures Sound() && (ok <==> tokens != []) && Published() == old(Published())
      ensures Kept(before, Snapshot(), tokens, manager.requests[id].blocks, manager.allocator.blockSize,
                   if ok then Some(next) else None, maxBlocks)
      ensures ok ==> Refreshed(before, Snapshot(), tokens, manager.requests[id].blocks, manager.allocator.blockSize)
      ensures manager.allocator.freeBlocks == old(manager.allocator.freeBlocks)
    {
      hide Coherent, Forest, Counts, FreeListOf, LedgerGrew, Kept, Catalog, Stamps, Refreshed, Offered;
      var size := manager.allocator.blockSize;
      var blocks := manager.requests[id].blocks;
      ghost var middle := Snapshot();
      OwnBlocksLive(manager.allocator.allocations, manager.requests, size, manager.allocator.numBlocks, id);
      var whole := blocks[..Min(BlocksFor(|tokens|, size), |blocks|)];
      TakeMore(blocks, 0, |whole|);
      var entry := RetainExact(tokens, whole, next);
      CoherentFacts(Snapshot(), size);
      ok := entry.Ok?;
      if ok {
        KeptWithEntry(before, middle, Snapshot(), tokens, blocks, size, maxBlocks, next);
        EntryIsRefreshed(before, middle, Snapshot(), tokens, blocks, size);
      } else {
        NothingMoreKept(before, middle, Snapshot(), tokens, blocks, size, maxBlocks);
      }
    }

    // The radix part: one node per complete block that is not published yet.
    method RetainPath(tokens: seq<Token>, id: string) returns (published: nat)
      requires Valid() && id in manager.requests
      modifies `nodes, `edges, `references, `nextNode, `clock, `paths, `index, manager.allocator
      ensures Sound()
      ensures var blocks := manager.requests[id].blocks;
              var complete := Min(|tokens| / manager.allocator.blockSize, |blocks|);
              && Retained(old(Snapshot()), Snapshot(), tokens, blocks, manager.allocator.blockSize, complete)
              && Refreshed(old(Snapshot()), Snapshot(), tokens, blocks, manager.allocator.blockSize)
      ensures published == |Published()| - |old(Published())|
      ensures manager.allocator.freeBlocks == old(manager.allocator.freeBlocks)
    {
      hide Coherent, Forest, Counts, FreeListOf, LedgerGrew, Retained, PathRefreshed, Catalog, Stamps, Refreshed,
           Blocks, WellFormed, Mirrors;
      var size := manager.allocator.blockSize;
      var blocks := manager.requests[id].blocks;
      var parent: Option<nat> := None;
      published := 0;
      ghost var before := Snapshot();
      RetainedNone(before, tokens, blocks, size);
      CoherentFacts(before, size);
      NothingRefreshed(Accesses(), tokens, size, clock);
      FirstBlocks(tokens, size);
      for k := 0 to Min(|tokens| / size, |blocks|)
        invariant Sound() && published == |Published()| - |old(Published())|
        invariant clock == old(clock) + k
        invariant PathRefreshed(old(Accesses()), Accesses(), tokens, size, old(clock), k)
        invariant k > 0 ==> parent.Some? && parent.value in nodes && parent.value in paths
        invariant k == 0 ==> parent.None?
        invariant ParentPath(Snapshot(), parent) == Blocks(tokens, k, size)
        invariant Retained(before, Snapshot(), tokens, blocks, size, k)
        invariant manager.allocator.freeBlocks == old(manager.allocator.freeBlocks)
      {
        BlockFits(k, |tokens|, size);
        OwnBlocksLive(manager.allocator.allocations, manager.requests, size, manager.allocator.numBlocks, id);
        ghost var middle := Snapshot();
        var tokenBlock := tokens[k * size..(k + 1) * size];
        NextBlocks(tokens, k, size);
        assert blocks[k] in blocks;
        RefreshedMore(old(Accesses()), Accesses(), tokens, size, old(clock), k);
        var i, added := RetainBlock(parent, tokenBlock, blocks[k]);
        CoherentFacts(Snapshot(), size);
        RetainedStep(before, middle, Snapshot(), tokens, blocks, size, k);
        parent := Some(i);
        published := published + if added then 1 else 0;
      }
      CoherentFacts(Snapshot(), size);
      PathIsRefreshed(before, Snapshot(), tokens, blocks, size);
    }

    predicate Holds(item: Item)
      reads this, manager, manager.allocator
      ensures Holds(item) == Has(Snapshot(), item)
    {
      match item
      case NodeItem(i) => i in nodes
      case ExactItem(k) => k in exact
    }

    function StampOf(item: Item): nat
      requires Holds(item)
      reads this, manager, manager.allocator
      ensures StampOf(item) == Stamp(Snapshot(), item)
    {
      match item
      case NodeItem(i) => nodes[i].lastAccess
      case ExactItem(k) => exact[k].lastAccess
    }

    function BlocksOf(item: Item): seq<nat>
      requires Holds(item)
      reads this, manager, manager.allocator
      ensures BlocksOf(item) == ItemBlocks(Snapshot(), item)
    {
      match item
      case NodeItem(i) => [nodes[i].block]
      case ExactItem(k) => exact[k].blocks
    }

    function OwnerOf(item: Item): Owner
      requires Holds(item)
      reads this, manager, manager.allocator
      ensures OwnerOf(item) == ItemOwner(Snapshot(), item)
    {
      match item
      case NodeItem(i) => Node(i)
      case ExactItem(k) => Exact(exact[k].entry)
    }

    // Whether evicting the item would give back memory: some block is counted only by the cache.
    predicate IsFreeable(item: Item)
      requires Sound() && Holds(item)
      reads this, manager, manager.allocator
      ensures IsFreeable(item) == Freeable(Snapshot(), item)
    {
      FreeableByCounts(Snapshot(), manager.allocator.blockSize, manager.allocator.refcounts, item);
      exists b | b in BlocksOf(item) ::
        manager.allocator.refcounts[b] == RefCount(references, b)
    }

    // Drops the least recently used leaf or exact entry, if there is one to drop.
    method EvictOne(onlyFreeable: bool) returns (evicted: bool, ghost victim: Item)
      requires Sound()
      modifies `nodes, `edges, `exact, `references, `paths, `index, manager.allocator
      ensures Sound()
      ensures evicted <==> exists item :: Evictable(old(Snapshot()), item, onlyFreeable)
      ensures evicted ==>
        && LeastRecentlyUsed(old(Snapshot()), victim, onlyFreeable)
        && old(Forest(Snapshot(), manager.allocator.blockSize))
        && Snapshot() == Without(old(Snapshot()), victim, references)
        && references.Keys <= old(references.Keys)
      ensures !evicted ==>
                Snapshot() == old(Snapshot()) && manager.allocator.freeBlocks == old(manager.allocator.freeBlocks)
    {
      hide Coherent, Forest, Counts, FreeListOf;
      var chosen := ChooseVictim(onlyFreeable);
      if chosen.None? {
        evicted, victim := false, NodeItem(0);
        return;
      }
      evicted, victim := true, chosen.value;
      Drop(chosen.value);
    }

    // Leaves and exact entries, or only those whose eviction frees memory.
    function Candidates(onlyFreeable: bool): (r: set<Item>)
      requires Sound()
      reads this, manager, manager.allocator
      ensures forall item :: item in r <==> Evictable(Snapshot(), item, onlyFreeable)
    {
      var all := LeavesAndEntries(nodes, exact);
      assert forall item :: item in all <==> Candidate(Snapshot(), item);
      if onlyFreeable then set item | item in all && IsFreeable(item) else all
    }

    method ChooseVictim(onlyFreeable: bool) returns (r: Option<Item>)
      requires Sound()
      ensures r.None? ==> forall item :: !Evictable(Snapshot(), item, onlyFreeable)
      ensures r.Some? ==> LeastRecentlyUsed(Snapshot(), r.value, onlyFreeable)
    {
      hide Forest, Owns, Referenced, Counts, FreeListOf, WellFormed, Mirrors;
      var candidates := Candidates(onlyFreeable);
      if candidates == {} {
        assert forall item :: item !in candidates;
        return None;
      }
      ghost var least := LeastRecent(Snapshot(), candidates);
      var chosen :| chosen in candidates && forall item | item in candidates :: StampOf(chosen) <= StampOf(item);
      forall item | Evictable(Snapshot(), item, onlyFreeable)
        ensures Stamp(Snapshot(), chosen) <= Stamp(Snapshot(), item)
      {
        assert item in candidates && StampOf(chosen) <= StampOf(item);
      }
      LeastIsUnique(Snapshot(), manager.allocator.blockSize, chosen, onlyFreeable);
      return Some(chosen);
    }

    method Drop(item: Item)
      requires Sound() && Candidate(Snapshot(), item)
      modifies `nodes, `edges, `exact, `references, `paths, `index, manager.allocator
      ensures Sound() && old(Forest(Snapshot(), manager.allocator.blockSize))
      ensures Snapshot() == Without(old(Snapshot()), item, references)
      ensures references.Keys <= old(references.Keys)
    {
      hide Coherent, Forest, Catalog, Counts, FreeListOf, WellFormed, Mirrors, Bumped;
      ghost var size, before := manager.allocator.blockSize, Snapshot();
      CoherentFacts(before, size);
      var blocks := BlocksOf(item);
      ItemFacts(before, size, manager.allocator.numBlocks, item);
      var released := manager.allocator.Release(OwnerOf(item));
      MirrorsUnchanged(before.owned, manager.allocator.allocations, manager.requests, size);
      Unreference(blocks);
      BumpedShrinks(references, blocks, before.references);
      match item {
        case ExactItem(k) =>
          DropExactKeeps(before, size, k, references);
          exact := exact - {k};
        case NodeItem(i) =>
          DropNodeKeeps(before, size, i, references);
          edges := edges - {EdgeOf(nodes[i])};
          index := index - {paths[i]};
          paths := paths - {i};
          nodes := WithoutChild(nodes - {i}, nodes[i].parent, i);
      }
      assert Snapshot() == Without(before, item, references);
    }

    // Keeps the number of distinct cached blocks within the budget.
    method EvictToLimit()
      requires Sound()
      modifies `nodes, `edges, `exact, `references, `paths, `index, manager.allocator
      ensures Valid() && Shrinks(old(Snapshot()), Snapshot())
      ensures |old(references)| <= maxBlocks ==> Snapshot() == old(Snapshot())
    {
      hide Coherent, Without, Shrinks, LeastRecentlyUsed, Counts, FreeListOf, WellFormed, Mirrors;
      ghost var before := Snapshot();
      ShrinksReflexive(before, manager.allocator.blockSize);
      while |references| > maxBlocks
        invariant Sound() && Shrinks(before, Snapshot())
        invariant |before.references| <= maxBlocks ==> Snapshot() == before
        decreases |nodes| + |exact|
      {
        ghost var middle := Snapshot();
        var evicted, victim := EvictOne(false);
        if !evicted {
          NoCandidateMeansEmpty(middle, manager.allocator.blockSize);
          return;
        }
        EvictionShrinks(middle, manager.allocator.blockSize, victim, references, false);
        ShrinksTransitive(before, middle, Snapshot());
      }
    }

    // Drops least recently used entries whose blocks give memory back, until `required`
    // blocks are free or nothing freeable is left.
    method EvictUntilFree(required: int) returns (r: Reply<int>)
      requires Valid()
      modifies `nodes, `edges, `exact, `references, `paths, `index, manager.allocator
      ensures Valid() && !r.Exhausted? && (r.Raised? <==> required < 0)
      ensures r.Raised? ==>
                Snapshot() == old(Snapshot()) && manager.allocator.freeBlocks == old(manager.allocator.freeBlocks)
      ensures Shrinks(old(Snapshot()), Snapshot())
      ensures Unreclaimable(Snapshot(), manager.allocator.numBlocks)
           == Unreclaimable(old(Snapshot()), manager.allocator.numBlocks)
      ensures PressureOnly(old(Snapshot()), Snapshot())
      ensures r.Ok? ==> r.value == |manager.allocator.freeBlocks| - |old(manager.allocator.freeBlocks)| >= 0
      ensures r.Ok? ==>
        (|manager.allocator.freeBlocks| >= required <==>
         required <= manager.allocator.numBlocks - |Unreclaimable(old(Snapshot()), manager.allocator.numBlocks)|)
      ensures r.Ok? && |manager.allocator.freeBlocks| < required ==> forall item :: !Evictable(Snapshot(), item, true)
    {
      hide Coherent, Without, Shrinks, LeastRecentlyUsed, Counts, FreeListOf, WellFormed, Mirrors, Unreclaimable,
           PressureOnly;
      ghost var before, size, all := Snapshot(), manager.allocator.blockSize, manager.allocator.numBlocks;
      ShrinksReflexive(before, size);
      CoherentFacts(before, size);
      PressureNone(before);
      if required < 0 {
        return Raised;
      }
      var start := |manager.allocator.freeBlocks|;
      FreeAndUsed();
      ghost var done := false;
      while |manager.allocator.freeBlocks| < required
        invariant Valid() && Shrinks(before, Snapshot()) && PressureOnly(before, Snapshot())
        invariant Unreclaimable(Snapshot(), all) == Unreclaimable(before, all)
        invariant start <= |manager.allocator.freeBlocks|
        invariant |manager.allocator.freeBlocks| + |Used(manager.allocator.allocations, all)| == all
        decreases |nodes| + |exact|
      {
        ghost var middle := Snapshot();
        var evicted, victim := EvictOne(true);
        if !evicted {
          AllReclaimed(middle, size, all);
          break;
        }
        EvictionReclaims(middle, size, victim, references, all);
        EvictionIsPressure(middle, size, victim, references);
        CoherentFacts(middle, size);
        PressureTwice(before, middle, Snapshot());
        EvictionShrinks(middle, size, victim, references, true);
        ShrinksTransitive(before, middle, Snapshot());
        SubsetSize(references.Keys, middle.references.Keys);
        FreeAndUsed();
      }
      UnreclaimableWithinUsed(Snapshot(), size, all);
      return Ok(|manager.allocator.freeBlocks| - start);
    }

    // Empties the cache: a non-empty forest always has a leaf to drop.
    method Clear()
      requires Valid()
      modifies `nodes, `edges, `exact, `references, `paths, `index, manager.allocator
      ensures Valid() && nodes == map[] && edges == map[] && exact == map[] && references == map[]
      ensures Shrinks(old(Snapshot()), Snapshot())
    {
      hide Coherent, Without, Shrinks, LeastRecentlyUsed, Counts, FreeListOf, WellFormed, Mirrors;
      ghost var before := Snapshot();
      ShrinksReflexive(before, manager.allocator.blockSize);
      var more := true;
      while more
        invariant Valid() && Shrinks(before, Snapshot())
        invariant !more ==> forall item :: !Evictable(Snapshot(), item, false)
        decreases |nodes| + |exact|, more
      {
        ghost var middle, victim := Snapshot(), NodeItem(0);
        more, victim := EvictOne(false);
        if more {
          EvictionShrinks(middle, manager.allocator.blockSize, victim, references, false);
          ShrinksTransitive(before, middle, Snapshot());
          SubsetSize(references.Keys, middle.references.Keys);
        }
      }
      NoCandidateMeansEmpty(Snapshot(), manager.allocator.blockSize);
    }

    // Retains newly computed complete blocks and, when a first-token decision comes along,
    // the whole prompt; then enforces the size limit. `kept` is the state in between.
    method Publish(tokens: seq<Token>, id: string, next: Option<Token>) returns (r: Reply<nat>, ghost kept: View)
      requires Valid() && id in manager.requests
      modifies this, manager.allocator
      ensures Sound() && !r.Exhausted?
      ensures r.Raised? <==> maxBlocks > 0 && next.Some? && tokens == [] && [] !in old(exact)
      ensures r.Ok? ==> Valid()
      ensures maxBlocks == 0 ==> r == Ok(0) && kept == Snapshot() == old(Snapshot())
      ensures Coherent(kept, manager.allocator.blockSize) && WellFormed(kept.owned, manager.allocator.numBlocks)
      ensures Mirrors(kept.owned, manager.requests, manager.allocator.blockSize)
      ensures maxBlocks > 0 && r.Ok? ==>
        && Kept(old(Snapshot()), kept, tokens, manager.requests[id].blocks, manager.allocator.blockSize, next,
                maxBlocks)
        && Shrinks(kept, Snapshot())
        && (|kept.references| <= maxBlocks ==> Snapshot() == kept)
        && Refreshed(old(Snapshot()), kept, tokens, manager.requests[id].blocks, manager.allocator.blockSize)
        && r.value == |Catalog(kept)| - |old(Published())|
    {
      hide Coherent, Kept, Shrinks, Refreshed, Counts, FreeListOf, WellFormed, Mirrors, Catalog, Stamps;
      if maxBlocks == 0 {
        kept := Snapshot();
        return Ok(0), kept;
      }
      r := Retain(tokens, id, next);
      kept := Snapshot();
      if r.Ok? {
        EvictToLimit();
      }
    }

    // The cache's own counts never claim more than the allocator's, and exactly as much where
    // no request holds the block.
    lemma ReferencesWithinRefcounts(b: nat)
      requires Sound() && b in references
      ensures b < manager.allocator.numBlocks && 0 < references[b] <= manager.allocator.refcounts[b]
      ensures references[b] == manager.allocator.refcounts[b] <==> !Pinned(manager.allocator.allocations, b)
    {
      hide Forest, Stamped, Owns, FreeListOf;
      var owned := manager.allocator.allocations;
      assert RefCount(references, b) == |CacheHolders(owned, b)|;
      assert CacheHolders(owned, b) != {};
      var o :| o in CacheHolders(owned, b);
      SubsetSize(CacheHolders(owned, b), Holders(owned, b));
      if |CacheHolders(owned, b)| == |Holders(owned, b)| { SameSizeSubset(CacheHolders(owned, b), Holders(owned, b)); }
    }

    lemma FreeAndUsed()
      requires manager.allocator.Valid()
      ensures |manager.allocator.freeBlocks| + |Used(manager.allocator.allocations, manager.allocator.numBlocks)|
           == manager.allocator.numBlocks
    {
      FreeCount(manager.allocator.allocations, manager.allocator.refcounts, manager.allocator.freeBlocks,
                Used(manager.allocator.allocations, manager.allocator.numBlocks));
    }
  }

  // What eviction can do to the rest of the system: cache owners, published prefixes and
  // exact entries disappear; nothing else changes.
  ghost predicate Shrinks(before: View, after: View) {
    && (forall p | p in before.index :: before.index[p] in before.nodes)
    && (forall p | p in after.index :: after.index[p] in after.nodes)
    && LedgerShrank(before.owned, after.owned)
    && SubCatalog(Catalog(after), Catalog(before))
    && SubCatalog(Stamps(after), Stamps(before)) && SubEntries(after.exact, before.exact)
  }

  lemma SamePins(a: Ledger, b: Ledger)
    requires LedgerShrank(a, b)
    ensures forall x: nat :: Pinned(a, x) == Pinned(b, x)
  {
    forall x: nat ensures Pinned(a, x) == Pinned(b, x) {
      FewerPins(a, b, x);
      FewerPins(b, a, x);
    }
  }

  // What eviction under pressure does besides: it drops only owners with a block that no request
  // holds, and nodes above pinned ones stay.
  ghost predicate PressureOnly(a: View, b: View) {
    && LedgerShrank(a.owned, b.owned)
    && (forall i | i in b.nodes :: i in a.paths && i in b.paths && b.paths[i] == a.paths[i])
    && (forall i | i in a.nodes && Stuck(a, i) :: i in b.nodes && Stuck(b, i))
    && (forall o | o in a.owned && o !in b.owned :: Droppable(a.owned, o))
  }

  lemma PressureNone(v: View)
    requires v.paths.Keys == v.nodes.Keys
    ensures PressureOnly(v, v)
  {
  }

  lemma PressureTwice(a: View, b: View, c: View)
    requires PressureOnly(a, b) && PressureOnly(b, c) && a.nodes.Keys == a.paths.Keys && b.nodes.Keys == b.paths.Keys
    ensures PressureOnly(a, c)
  {
    hide Stuck, Pinned;
    SamePins(a.owned, b.owned);
  }

  lemma EvictionIsPressure(v: View, size: nat, item: Item, references: map<nat, nat>)
    requires Coherent(v, size) && LeastRecentlyUsed(v, item, true)
    requires Coherent(Without(v, item, references), size)
    ensures PressureOnly(v, Without(v, item, references))
  {
    hide Stuck, Pinned, Referenced, Stamped, Owns, Forest, Without;
    CoherentFacts(v, size);
    var w := Without(v, item, references);
    forall i | i in v.nodes && Stuck(v, i) ensures i in w.nodes && Stuck(w, i) {
      StuckSurvives(v, size, item, references, i);
    }
    DroppedOwner(v, item, references);
    KeptPaths(v, item, references);
  }

  lemma DroppedOwner(v: View, item: Item, references: map<nat, nat>)
    requires Owns(v) && Has(v, item) && Freeable(v, item) && v.paths.Keys == v.nodes.Keys
    ensures Without(v, item, references).owned == v.owned - {ItemOwner(v, item)}
    ensures Droppable(v.owned, ItemOwner(v, item))
  {
    hide Pinned;
    assert ItemOwner(v, item) in v.owned && v.owned[ItemOwner(v, item)] == ItemBlocks(v, item);
  }

  lemma KeptPaths(v: View, item: Item, references: map<nat, nat>)
    requires Has(v, item) && v.paths.Keys == v.nodes.Keys
    ensures var w := Without(v, item, references);
            forall i | i in w.nodes :: i in v.paths && i in w.paths && w.paths[i] == v.paths[i]
  {
  }

  lemma ShrinksReflexive(v: View, size: nat)
    requires Coherent(v, size)
    ensures Shrinks(v, v)
  {
    CoherentFacts(v, size);
  }

  lemma ShrinksTransitive(a: View, b: View, c: View)
    requires Shrinks(a, b) && Shrinks(b, c)
    ensures Shrinks(a, c)
  {
  }

  lemma EvictionShrinks(v: View, size: nat, item: Item, references: map<nat, nat>, onlyFreeable: bool)
    requires Coherent(v, size) && LeastRecentlyUsed(v, item, onlyFreeable)
    requires Coherent(Without(v, item, references), size)
    ensures Shrinks(v, Without(v, item, references))
    ensures var w := Without(v, item, references); |w.nodes| + |w.exact| < |v.nodes| + |v.exact|
  {
    CoherentFacts(v, size);
    var w := Without(v, item, references);
    CoherentFacts(w, size);
    WithoutSmaller(v, item, references);
    WithoutWithin(v, item, references);
  }

  lemma WithoutWithin(v: View, item: Item, references: map<nat, nat>)
    requires Has(v, item) && v.paths.Keys == v.nodes.Keys
    requires forall p | p in v.index :: v.index[p] in v.nodes
    requires forall p | p in Without(v, item, references).index ::
               Without(v, item, references).index[p] in Without(v, item, references).nodes
    ensures Shrinks(v, Without(v, item, references))
  {
    var w := Without(v, item, references);
    assert w.owned == v.owned - {ItemOwner(v, item)};
    forall i | i in w.nodes
      ensures i in v.nodes && w.nodes[i].block == v.nodes[i].block && w.nodes[i].lastAccess == v.nodes[i].lastAccess
    { }
  }

  lemma WithoutSmaller(v: View, item: Item, references: map<nat, nat>)
    requires Has(v, item) && v.paths.Keys == v.nodes.Keys
    ensures var w := Without(v, item, references); |w.nodes| + |w.exact| < |v.nodes| + |v.exact|
  {
    WithoutKeys(v, item, references);
    var w := Without(v, item, references);
    hide Without;
    if item.ExactItem? {
      FewerKeys(v.exact, w.exact, item.key);
      SameKeys(v.nodes, w.nodes);
    } else {
      FewerKeys(v.nodes, w.nodes, item.node);
      SameKeys(v.exact, w.exact);
    }
  }

  lemma WithoutKeys(v: View, item: Item, references: map<nat, nat>)
    requires Has(v, item) && v.paths.Keys == v.nodes.Keys
    ensures var w := Without(v, item, references);
            match item
            case ExactItem(k) => w.exact.Keys == v.exact.Keys - {k} && w.nodes.Keys == v.nodes.Keys
            case NodeItem(i) => w.nodes.Keys == v.nodes.Keys - {i} && w.exact.Keys == v.exact.Keys
  {
  }

  lemma SameKeys<K, V>(a: map<K, V>, b: map<K, V>)
    requires b.Keys == a.Keys
    ensures |b| == |a|
  {
    assert |b| == |b.Keys| && |a| == |a.Keys|;
  }

  lemma FewerKeys<K, V>(a: map<K, V>, b: map<K, V>, k: K)
    requires k in a && b.Keys == a.Keys - {k}
    ensures |b| < |a|
  {
    assert |b| == |b.Keys| && |a| == |a.Keys|;
  }

  lemma NoCandidateMeansEmpty(v: View, size: nat)
    requires Coherent(v, size) && forall item :: !Evictable(v, item, false)
    ensures v.nodes == map[] && v.edges == map[] && v.exact == map[] && v.references == map[]
  {
    if v.nodes != map[] {
      var i :| i in v.nodes;
      var leaf := LeafBelow(v, size, i);
      assert Evictable(v, NodeItem(leaf), false);
    }
    forall k ensures k !in v.exact { assert !Evictable(v, ExactItem(k), false); }
    forall b: nat ensures b !in v.references {
      assert CacheHolders(v.owned, b) == {};
      assert RefCount(v.references, b) == 0;
    }
  }

  lemma EvictionReclaims(v: View, size: nat, item: Item, references: map<nat, nat>, numBlocks: nat)
    requires Coherent(v, size) && LeastRecentlyUsed(v, item, true)
    requires Coherent(Without(v, item, references), size)
    ensures Unreclaimable(Without(v, item, references), numBlocks) == Unreclaimable(v, numBlocks)
    ensures |Used(Without(v, item, references).owned, numBlocks)| <= |Used(v.owned, numBlocks)|
  {
    var w := Without(v, item, references);
    EvictionKeepsUnreclaimable(v, size, item, references, numBlocks);
    forall b: nat | b in Used(w.owned, numBlocks) ensures b in Used(v.owned, numBlocks) {
      assert Holders(w.owned, b) <= Holders(v.owned, b);
    }
    SubsetSize(Used(w.owned, numBlocks), Used(v.owned, numBlocks));
  }

  lemma AllReclaimed(v: View, size: nat, numBlocks: nat)
    requires Coherent(v, size) && forall item :: !Evictable(v, item, true)
    ensures Used(v.owned, numBlocks) <= Unreclaimable(v, numBlocks)
    ensures |Used(v.owned, numBlocks)| <= |Unreclaimable(v, numBlocks)|
  {
    forall item | Candidate(v, item) ensures !Freeable(v, item) { assert !Evictable(v, item, true); }
    forall b: nat | b in Used(v.owned, numBlocks) ensures b in Unreclaimable(v, numBlocks) {
      NothingLeftToFree(v, size, numBlocks, b);
    }
    SubsetSize(Used(v.owned, numBlocks), Unreclaimable(v, numBlocks));
  }

  lemma UnreclaimableWithinUsed(v: View, size: nat, numBlocks: nat)
    requires Coherent(v, size)
    ensures |Unreclaimable(v, numBlocks)| <= |Used(v.owned, numBlocks)|
  {
    forall b: nat | b in Unreclaimable(v, numBlocks) ensures b in Used(v.owned, numBlocks) {
      UnreclaimableIsUsed(v, numBlocks, b);
    }
    SubsetSize(Unreclaimable(v, numBlocks), Used(v.owned, numBlocks));
  }

  ghost predicate Evictable(v: View, item: Item, onlyFreeable: bool) {
    Candidate(v, item) && (onlyFreeable ==> Freeable(v, item))
  }

  // Pressure eviction has nothing left to give.
  ghost predicate NothingFreeable(v: View) {
    forall item :: !Evictable(v, item, true)
  }

  // The unique evictable item with the oldest access stamp.
  ghost predicate LeastRecentlyUsed(v: View, victim: Item, onlyFreeable: bool) {
    && Evictable(v, victim, onlyFreeable)
    && forall item | Evictable(v, item, onlyFreeable) && item != victim :: Stamp(v, victim) < Stamp(v, item)
  }

  lemma LeastIsUnique(v: View, size: nat, victim: Item, onlyFreeable: bool)
    requires Coherent(v, size) && Evictable(v, victim, onlyFreeable)
    requires forall item | Evictable(v, item, onlyFreeable) :: Stamp(v, victim) <= Stamp(v, item)
    ensures LeastRecentlyUsed(v, victim, onlyFreeable)
  {
    forall item | Evictable(v, item, onlyFreeable) && item != victim ensures Stamp(v, victim) < Stamp(v, item) {
      assert Has(v, item) && Has(v, victim);
    }
  }

  // Comparing the two counts decides whether all holders are cache owners.
  lemma FreeableByCounts(v: View, size: nat, refs: seq<nat>, item: Item)
    requires Coherent(v, size) && Has(v, item)
    requires Counts(v.owned, refs) && WellFormed(v.owned, |refs|)
    ensures forall b: nat | b in ItemBlocks(v, item) ::
              b < |refs| && (refs[b] == RefCount(v.references, b) <==> !Pinned(v.owned, b))
  {
    ItemFacts(v, size, |refs|, item);
    forall b: nat | b in ItemBlocks(v, item)
      ensures b < |refs| && (refs[b] == RefCount(v.references, b) <==> !Pinned(v.owned, b))
    {
      assert CacheHolders(v.owned, b) <= Holders(v.owned, b);
      if |CacheHolders(v.owned, b)| == |Holders(v.owned, b)| {
        SameSizeSubset(CacheHolders(v.owned, b), Holders(v.owned, b));
      }
    }
  }

  lemma SameSizeSubset<T>(a: set<T>, b: set<T>)
    requires a <= b && |a| == |b|
    ensures a == b
  {
    assert b == a + (b - a);
  }

  // An item's owner lists its blocks, which are distinct, in range and counted.
  lemma ItemFacts(v: View, size: nat, numBlocks: nat, item: Item)
    requires Coherent(v, size) && Has(v, item) && WellFormed(v.owned, numBlocks)
    ensures var o := ItemOwner(v, item);
            !o.Request? && o in v.owned && v.owned[o] == ItemBlocks(v, item)
    ensures Distinct(ItemBlocks(v, item))
    ensures forall b: nat | b in ItemBlocks(v, item) :: b < numBlocks && b in v.references
  {
    var o := ItemOwner(v, item);
    forall b: nat | b in ItemBlocks(v, item) ensures b < numBlocks && b in v.references {
      assert o in CacheHolders(v.owned, b);
      assert RefCount(v.references, b) > 0;
    }
  }

  lemma BumpedShrinks(after: map<nat, nat>, blocks: seq<nat>, before: map<nat, nat>)
    requires Bumped(after, blocks, before)
    requires forall b: nat | b in after :: after[b] > 0
    ensures after.Keys <= before.Keys
  {
    forall b | b in after.Keys ensures b in before.Keys { assert RefCount(after, b) > 0; }
  }

  // The state after retaining the first k complete blocks of a sequence.
  ghost predicate Retained(before: View, after: View, tokens: seq<Token>, blocks: seq<nat>, size: nat, k: nat)
    requires size > 0 && k <= |tokens| / size && k <= |blocks|
  {
    && (forall p | p in before.index :: before.index[p] in before.nodes)
    && (forall p | p in after.index :: after.index[p] in after.nodes)
    && Catalog(after) == Offered(Catalog(before), tokens, blocks, size, k)
    && LedgerGrew(before.owned, after.owned, blocks[..k])
    && after.references.Keys <= before.references.Keys + Members(blocks[..k])
  }

  // How many of the blocks are filled by the sequence.
  ghost function CompleteBlocks(tokens: seq<Token>, blocks: seq<nat>, size: nat): (k: nat)
    requires size > 0
    ensures k <= |tokens| / size && k <= |blocks|
  {
    DivBounds(|tokens|, size);
    Min(|tokens| / size, |blocks|)
  }

  // Does publishing also record an exact entry for the whole prompt?
  ghost predicate AddsEntry(exact: Entries, tokens: seq<Token>, size: nat, next: Option<Token>, maxBlocks: nat)
    requires size > 0
  {
    next.Some? && BlocksFor(|tokens|, size) <= maxBlocks && tokens !in exact
  }

  // The blocks that gain an owner when a sequence is published.
  ghost function PublishedBlocks(tokens: seq<Token>, blocks: seq<nat>, size: nat, whole: bool): seq<nat>
    requires size > 0
  {
    blocks[..if whole then Min(BlocksFor(|tokens|, size), |blocks|) else CompleteBlocks(tokens, blocks, size)]
  }

  // The state after publishing and before enforcing the limit: every complete block of the
  // sequence is published, and the exact entry too if it fits and was not there.
  ghost predicate Kept(before: View, after: View, tokens: seq<Token>, blocks: seq<nat>, size: nat,
                       next: Option<Token>, maxBlocks: nat)
    requires size > 0
  {
    var adds := AddsEntry(before.exact, tokens, size, next, maxBlocks);
    var touched := PublishedBlocks(tokens, blocks, size, adds);
    && (forall p | p in before.index :: before.index[p] in before.nodes)
    && (forall p | p in after.index :: after.index[p] in after.nodes)
    && Catalog(after) == Offered(Catalog(before), tokens, blocks, size, CompleteBlocks(tokens, blocks, size))
    && LedgerGrew(before.owned, after.owned, touched)
    && after.references.Keys <= before.references.Keys + Members(touched)
    && if adds
       then && tokens in after.exact && after.exact == before.exact[tokens := after.exact[tokens]]
            && after.exact[tokens].blocks == touched && after.exact[tokens].nextToken == next.value
       else after.exact == before.exact
  }

  // The order of use after publishing: the path from its root on, then the new exact entry; all
  // other prefixes and entries are as old as before.
  ghost predicate Refreshed(before: View, after: View, tokens: seq<Token>, blocks: seq<nat>, size: nat)
    requires size > 0
  {
    var n := CompleteBlocks(tokens, blocks, size);
    var entry := if tokens in after.exact && tokens !in before.exact then 1 else 0;
    && (forall p | p in before.index :: before.index[p] in before.nodes)
    && (forall p | p in after.index :: after.index[p] in after.nodes)
    && PathRefreshed(Stamps(before), Stamps(after), tokens, size, before.clock, n)
    && after.clock == before.clock + n + entry
    && (entry == 1 ==> after.exact[tokens].lastAccess == after.clock)
  }

  lemma PathIsRefreshed(before: View, after: View, tokens: seq<Token>, blocks: seq<nat>, size: nat)
    requires size > 0 && after.exact == before.exact
    requires forall p | p in before.index :: before.index[p] in before.nodes
    requires forall p | p in after.index :: after.index[p] in after.nodes
    requires var n := CompleteBlocks(tokens, blocks, size);
             && PathRefreshed(Stamps(before), Stamps(after), tokens, size, before.clock, n)
             && after.clock == before.clock + n
    ensures Refreshed(before, after, tokens, blocks, size)
  {
  }

  lemma EntryIsRefreshed(before: View, middle: View, after: View, tokens: seq<Token>, blocks: seq<nat>, size: nat)
    requires size > 0 && Refreshed(before, middle, tokens, blocks, size) && middle.exact == before.exact
    requires forall p | p in after.index :: after.index[p] in after.nodes
    requires Stamps(after) == Stamps(middle) && tokens !in before.exact
    requires tokens in after.exact && after.exact[tokens].lastAccess == after.clock == middle.clock + 1
    ensures Refreshed(before, after, tokens, blocks, size)
  {
    hide PathRefreshed;
  }

  lemma RetainedIsKept(before: View, after: View, tokens: seq<Token>, blocks: seq<nat>, size: nat, maxBlocks: nat,
                       next: Option<Token>)
    requires size > 0
    requires Retained(before, after, tokens, blocks, size, CompleteBlocks(tokens, blocks, size))
    requires after.exact == before.exact
    ensures Kept(before, after, tokens, blocks, size, None, maxBlocks)
    ensures !AddsEntry(before.exact, tokens, size, next, maxBlocks) ==>
              Kept(before, after, tokens, blocks, size, next, maxBlocks)
  {
    hide Catalog, LedgerGrew, Offered;
  }

  lemma NothingMoreKept(before: View, middle: View, after: View, tokens: seq<Token>, blocks: seq<nat>, size: nat,
                        maxBlocks: nat)
    requires size > 0 && Kept(before, middle, tokens, blocks, size, None, maxBlocks)
    requires forall p | p in after.index :: after.index[p] in after.nodes
    requires Catalog(after) == Catalog(middle) && after.owned == middle.owned
    requires after.exact == middle.exact && after.references == middle.references
    ensures Kept(before, after, tokens, blocks, size, None, maxBlocks)
  {
  }

  lemma KeptWithEntry(before: View, middle: View, after: View, tokens: seq<Token>, blocks: seq<nat>, size: nat,
                      maxBlocks: nat, next: Token)
    requires size > 0 && AddsEntry(before.exact, tokens, size, Some(next), maxBlocks)
    requires Kept(before, middle, tokens, blocks, size, None, maxBlocks)
    requires forall p | p in after.index :: after.index[p] in after.nodes
    requires Catalog(after) == Catalog(middle)
    requires var touched := PublishedBlocks(tokens, blocks, size, true);
             && LedgerGrew(middle.owned, after.owned, touched)
             && after.references.Keys <= middle.references.Keys + Members(touched)
             && tokens in after.exact && after.exact == middle.exact[tokens := after.exact[tokens]]
             && after.exact[tokens].blocks == touched && after.exact[tokens].nextToken == next
    ensures Kept(before, after, tokens, blocks, size, Some(next), maxBlocks)
  {
    hide Catalog, LedgerGrew, Offered;
    var touched, complete := PublishedBlocks(tokens, blocks, size, true), PublishedBlocks(tokens, blocks, size, false);
    CompleteWithinWhole(|tokens|, size);
    TakeMore(blocks, |complete|, |touched|);
    LedgerGrewTwice(before.owned, middle.owned, after.owned, complete, touched, touched);
  }

  lemma RetainedNone(v: View, tokens: seq<Token>, blocks: seq<nat>, size: nat)
    requires size > 0 && Coherent(v, size)
    ensures Retained(v, v, tokens, blocks, size, 0)
  {
    CoherentFacts(v, size);
    LedgerGrewNone(v.owned);
  }

  lemma RetainedStep(before: View, middle: View, after: View, tokens: seq<Token>, blocks: seq<nat>, size: nat, k: nat)
    requires size > 0 && k < |tokens| / size && k < |blocks|
    requires Retained(before, middle, tokens, blocks, size, k)
    requires forall p | p in after.index :: after.index[p] in after.nodes
    requires (k + 1) * size <= |tokens|
    requires var path := Blocks(tokens, k + 1, size);
             Catalog(after) == if path in Catalog(middle) then Catalog(middle) else Catalog(middle)[path := blocks[k]]
    requires LedgerGrew(middle.owned, after.owned, [blocks[k]])
    requires after.references.Keys <= middle.references.Keys + Members([blocks[k]])
    ensures Retained(before, after, tokens, blocks, size, k + 1)
  {
    hide Catalog, LedgerGrew;
    TakeMore(blocks, k, k + 1);
    LedgerGrewTwice(before.owned, middle.owned, after.owned, blocks[..k], [blocks[k]], blocks[..k + 1]);
  }

  lemma CompleteWithinWhole(length: nat, size: nat)
    requires size > 0
    ensures length / size <= BlocksFor(length, size)
    ensures BlocksFor(length, size) == 0 <==> length == 0
  {
    var k := BlocksFor(length, size);
    DivBounds(length, size);
    assert (k + 1) * size == k * size + size;
    MulLess(length / size, k + 1, size);
    if k == 0 { assert k * size == 0; } else { MulMono(1, k, size); }
  }

  // What the cache's methods need to know about a coherent state.
  lemma CoherentFacts(v: View, size: nat)
    requires Coherent(v, size)
    ensures Forest(v, size) && v.paths.Keys == v.nodes.Keys
    ensures forall p | p in v.index :: v.index[p] in v.nodes
    ensures Node(v.nextNode) !in v.owned && Exact(v.nextEntry) !in v.owned
    ensures forall b: nat | b in v.references :: v.references[b] > 0
  {
    assert v.nextEntry !in EntryIds(v.exact);
  }

  lemma BumpedKeys(before: map<nat, nat>, blocks: seq<nat>, after: map<nat, nat>)
    requires Bumped(before, blocks, after)
    ensures after.Keys <= before.Keys + Members(blocks)
  {
    forall b | b in after.Keys ensures b in before.Keys + Members(blocks) {
      assert RefCount(after, b) > 0;
    }
  }

  // Requests see nothing of a change among cache owners.
  lemma MirrorsUnchanged(before: Ledger, after: Ledger, requests: map<string, Table>, size: nat)
    requires Mirrors(before, requests, size)
    requires forall o: Owner | o.Request? :: (o in before <==> o in after) && (o in before ==> after[o] == before[o])
    ensures Mirrors(after, requests, size)
  {
  }

  // Burning an entry id without recording an entry is harmless.
  lemma SkippedEntryKeeps(v: View, size: nat)
    requires Coherent(v, size)
    ensures Coherent(v.(nextEntry := v.nextEntry + 1), size)
    ensures Catalog(v.(nextEntry := v.nextEntry + 1)) == Catalog(v)
  {
    hide Forest, Owns, Stamped, Catalog;
    var w := v.(nextEntry := v.nextEntry + 1);
    SameForestKeeps(v, w, size);
    SkippedEntry(v, w);
    forall b: nat ensures RefCount(w.references, b) == |CacheHolders(w.owned, b)| { }
  }

  lemma SkippedEntry(v: View, w: View)
    requires Owns(v) && Stamped(v) && w == v.(nextEntry := v.nextEntry + 1)
    ensures Owns(w) && Stamped(w)
  {
    FewerStamps(v, w);
  }

  // The blocks in a request's table are live and distinct.
  lemma OwnBlocksLive(owned: Ledger, requests: map<string, Table>, size: nat, numBlocks: nat, id: string)
    requires Mirrors(owned, requests, size) && WellFormed(owned, numBlocks) && id in requests
    ensures requests[id].blocks != [] && Distinct(requests[id].blocks)
    ensures forall b: nat | b in requests[id].blocks :: b < numBlocks && Holders(owned, b) != {}
  {
    forall b: nat | b in requests[id].blocks ensures b < numBlocks && Holders(owned, b) != {} {
      assert Request(id) in Holders(owned, b);
    }
  }

  lemma LedgerGrewTwice(a: Ledger, b: Ledger, c: Ledger, first: seq<nat>, second: seq<nat>, all: seq<nat>)
    requires LedgerGrew(a, b, first) && LedgerGrew(b, c, second)
    requires Members(first) <= Members(all) && Members(second) <= Members(all)
    ensures LedgerGrew(a, c, all)
  {
    forall o, x | o in c && o !in a && x in c[o] ensures x in all {
      assert x in Members(first) || x in Members(second);
    }
  }

  lemma LedgerGrewNone(a: Ledger)
    ensures LedgerGrew(a, a, [])
  {
  }

  lemma LedgerGrewOne(a: Ledger, o: Owner, blocks: seq<nat>)
    requires o !in a && !o.Request?
    ensures LedgerGrew(a, a[o := blocks], blocks)
  {
  }

  lemma TakeMore(blocks: seq<nat>, a: nat, b: nat)
    requires a <= b <= |blocks|
    ensures Members(blocks[..a]) <= Members(blocks[..b])
    ensures a < b ==> Members([blocks[a]]) <= Members(blocks[..b])
    ensures a + 1 == b ==> Members(blocks[..b]) == Members(blocks[..a]) + {blocks[a]}
    ensures Distinct(blocks) ==> Distinct(blocks[..b])
    ensures forall x | x in blocks[..b] :: x in blocks
  {
    forall x | x in Members(blocks[..a]) ensures x in Members(blocks[..b]) {
      var i :| 0 <= i < a && blocks[..a][i] == x;
      assert blocks[..b][i] == x;
    }
    if a < b { assert blocks[..b][a] == blocks[a]; }
    if a + 1 == b { assert blocks[..b] == blocks[..a] + [blocks[a]]; }
  }

  // Published prefixes are prefix-closed, so past the first gap there is nothing.
  lemma {:induction false} PublishedPrefix(v: View, size: nat, tokens: seq<Token>, m: nat)
    requires Forest(v, size) && size > 0 && m > 1 && m * size <= |tokens|
    requires Blocks(tokens, m, size) in v.index
    ensures Blocks(tokens, m - 1, size) in v.index
  {
    var whole := Blocks(tokens, m, size);
    var i := v.index[whole];
    assert NodeOk(v, size, i);
    assert m * size == (m - 1) * size + size;
    assert (m - 1) * size >= size by { MulMono(1, m - 1, size); }
    var p := v.nodes[i].parent;
    assert p.Some?;
    assert NodeOk(v, size, p.value);
    assert v.paths[p.value] == whole[..(m - 1) * size] == Blocks(tokens, m - 1, size);
  }

  lemma NothingLongerPublished(v: View, size: nat, tokens: seq<Token>, k: nat)
    requires Forest(v, size) && 0 < size && 0 < k
    requires Blocks(tokens, k, size) !in v.index
    ensures forall p | p in v.index :: v.index[p] in v.nodes
    ensures forall j: nat | k <= j <= |tokens| / size :: Blocks(tokens, j, size) !in Catalog(v)
  {
    forall j: nat | k <= j <= |tokens| / size ensures Blocks(tokens, j, size) !in v.index {
      GapStays(v, size, tokens, k, j);
    }
  }

  lemma {:induction false} GapStays(v: View, size: nat, tokens: seq<Token>, k: nat, j: nat)
    requires Forest(v, size) && 0 < size && 0 < k <= j <= |tokens| / size
    requires Blocks(tokens, k, size) !in v.index
    ensures Blocks(tokens, j, size) !in v.index
    decreases j
  {
    if j > k {
      GapStays(v, size, tokens, k, j - 1);
      BlockFits(j - 1, |tokens|, size);
      if Blocks(tokens, j, size) in v.index { PublishedPrefix(v, size, tokens, j); }
    }
  }
}
