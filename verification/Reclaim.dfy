// Which blocks can eviction under pressure give back? Only leaves and exact entries are ever
// dropped, so a cache-only block stays out of reach when a request pins a block below it.
module Reclaiming {
  import opened Common
  import opened Ownership
  import opened PrefixForest

  // Held by some request, not only by the cache.
  ghost predicate Pinned(owned: Ledger, b: nat) {
    Holders(owned, b) != CacheHolders(owned, b)
  }

  lemma PinnedMeans(owned: Ledger, b: nat)
    ensures Pinned(owned, b) <==> exists id :: Request(id) in owned && b in owned[Request(id)]
  {
    if Pinned(owned, b) {
      assert CacheHolders(owned, b) <= Holders(owned, b);
      var o :| o in Holders(owned, b) && o !in CacheHolders(owned, b);
      assert Request(o.id) in owned;
    }
    if id :| Request(id) in owned && b in owned[Request(id)] {
      assert Request(id) in Holders(owned, b) && Request(id) !in CacheHolders(owned, b);
    }
  }

  // Fewer requests pin fewer blocks.
  lemma FewerPins(a: Ledger, b: Ledger, x: nat)
    requires forall o: Owner | o.Request? && o in b :: o in a && forall y | y in b[o] :: y in a[o]
    ensures Pinned(b, x) ==> Pinned(a, x)
  {
    PinnedMeans(a, x);
    PinnedMeans(b, x);
    if id :| Request(id) in b && x in b[Request(id)] { assert Request(id) in a && x in a[Request(id)]; }
  }

  // An owner that pressure eviction can drop.
  ghost predicate Droppable(owned: Ledger, o: Owner) {
    o in owned && !o.Request? && exists b | b in owned[o] :: !Pinned(owned, b)
  }

  predicate Candidate(v: View, item: Item) {
    match item
    case NodeItem(i) => i in v.nodes && v.nodes[i].children == {}
    case ExactItem(k) => k in v.exact
  }

  // Some block of the item has no holder outside the cache.
  ghost predicate Freeable(v: View, item: Item)
    requires Has(v, item)
  {
    exists b | b in ItemBlocks(v, item) :: !Pinned(v.owned, b)
  }

  // Node i is j or an ancestor of j.
  ghost predicate Above(v: View, i: nat, j: nat)
    decreases j
  {
    i == j ||
    (j in v.nodes && v.nodes[j].parent.Some? && v.nodes[j].parent.value < j && Above(v, i, v.nodes[j].parent.value))
  }

  ghost predicate Stuck(v: View, i: nat) {
    exists j | j in v.nodes :: Above(v, i, j) && Pinned(v.owned, v.nodes[j].block)
  }

  ghost predicate HeldByStuckNode(v: View, b: nat) {
    exists i | i in v.nodes :: v.nodes[i].block == b && Stuck(v, i)
  }

  // The blocks no amount of pressure eviction can free.
  ghost function Unreclaimable(v: View, numBlocks: nat): set<nat> {
    set b: nat | 0 <= b < numBlocks && (Pinned(v.owned, b) || HeldByStuckNode(v, b))
  }

  lemma {:induction false} AboveTransitive(v: View, i: nat, c: nat, j: nat)
    requires Above(v, i, c) && Above(v, c, j)
    ensures Above(v, i, j)
    decreases j
  {
    if c != j { AboveTransitive(v, i, c, v.nodes[j].parent.value); }
  }

  // A node without children has nothing below it.
  lemma {:induction false} NothingBelowLeaf(v: View, size: nat, i: nat, j: nat)
    requires Forest(v, size) && i in v.nodes && j in v.nodes && v.nodes[i].children == {}
    requires Above(v, i, j)
    ensures i == j
    decreases j
  {
    if i != j {
      assert NodeOk(v, size, j);
      NothingBelowLeaf(v, size, i, v.nodes[j].parent.value);
    }
  }

  // Children have larger ids than their parents, so descending reaches a leaf.
  lemma {:induction false} LeafBelow(v: View, size: nat, i: nat) returns (leaf: nat)
    requires Forest(v, size) && i in v.nodes
    ensures leaf in v.nodes && v.nodes[leaf].children == {} && Above(v, i, leaf)
    decreases v.nextNode - i
  {
    if v.nodes[i].children == {} {
      leaf := i;
    } else {
      assert NodeOk(v, size, i);
      var c :| c in v.nodes[i].children;
      assert NodeOk(v, size, c);
      leaf := LeafBelow(v, size, c);
      AboveTransitive(v, i, c, leaf);
    }
  }

  lemma {:induction false} AboveUnchanged(v: View, w: View, size: nat, i: nat, j: nat)
    requires Forest(w, size) && j in w.nodes
    requires forall k | k in w.nodes :: k in v.nodes && w.nodes[k].parent == v.nodes[k].parent
    ensures Above(v, i, j) == Above(w, i, j)
    decreases j
  {
    assert NodeOk(w, size, j);
    if w.nodes[j].parent.Some? { AboveUnchanged(v, w, size, i, w.nodes[j].parent.value); }
  }

  // Removing a cache owner does not change what requests hold.
  lemma PinsUnchanged(owned: Ledger, o: Owner, b: nat)
    requires !o.Request?
    ensures Pinned(owned - {o}, b) == Pinned(owned, b)
  {
    assert forall x :: x in Holders(owned - {o}, b) <==> x in Holders(owned, b) && x != o;
    assert forall x :: x in CacheHolders(owned - {o}, b) <==> x in CacheHolders(owned, b) && x != o;
    assert o in Holders(owned, b) <==> o in CacheHolders(owned, b);
    if Pinned(owned, b) {
      var x :| x in Holders(owned, b) && x !in CacheHolders(owned, b);
      assert x in Holders(owned - {o}, b) && x !in CacheHolders(owned - {o}, b);
    }
  }

  // A stuck node outlives the eviction of any freeable candidate, and stays stuck.
  lemma StuckSurvives(v: View, size: nat, item: Item, references: map<nat, nat>, i: nat)
    requires Forest(v, size) && Candidate(v, item) && Freeable(v, item)
    requires Forest(Without(v, item, references), size)
    requires i in v.nodes && Stuck(v, i)
    ensures var w := Without(v, item, references);
            i in w.nodes && w.nodes[i].block == v.nodes[i].block && Stuck(w, i)
  {
    hide NodeOk, Pinned;
    var w := Without(v, item, references);
    var j :| j in v.nodes && Above(v, i, j) && Pinned(v.owned, v.nodes[j].block);
    if item.NodeItem? {
      assert ItemBlocks(v, item) == [v.nodes[item.node].block];
      assert j != item.node;
      if i == item.node { NothingBelowLeaf(v, size, i, j); }
    }
    WithoutNodes(v, item, references);
    hide Without;
    AboveUnchanged(v, w, size, i, j);
    PinsUnchanged(v.owned, ItemOwner(v, item), v.nodes[j].block);
    assert j in w.nodes && Pinned(w.owned, w.nodes[j].block);
  }

  lemma WithoutNodes(v: View, item: Item, references: map<nat, nat>)
    requires Has(v, item) && v.paths.Keys == v.nodes.Keys
    ensures var w := Without(v, item, references);
            && w.owned == v.owned - {ItemOwner(v, item)}
            && (forall k | k in v.nodes && item != NodeItem(k) :: k in w.nodes)
            && (forall k | k in w.nodes ::
                  k in v.nodes && w.nodes[k].block == v.nodes[k].block && w.nodes[k].parent == v.nodes[k].parent)
  {
  }

  lemma StuckBefore(v: View, size: nat, item: Item, references: map<nat, nat>, i: nat)
    requires Forest(v, size) && Has(v, item)
    requires Forest(Without(v, item, references), size)
    requires i in Without(v, item, references).nodes && Stuck(Without(v, item, references), i)
    ensures i in v.nodes && v.nodes[i].block == Without(v, item, references).nodes[i].block && Stuck(v, i)
  {
    hide NodeOk, Pinned;
    WithoutNodes(v, item, references);
    var w := Without(v, item, references);
    hide Without;
    var j :| j in w.nodes && Above(w, i, j) && Pinned(w.owned, w.nodes[j].block);
    AboveUnchanged(v, w, size, i, j);
    PinsUnchanged(v.owned, ItemOwner(v, item), w.nodes[j].block);
  }

  lemma EvictionKeepsUnreclaimable(v: View, size: nat, item: Item, references: map<nat, nat>, numBlocks: nat)
    requires Forest(v, size) && Candidate(v, item) && Freeable(v, item)
    requires Forest(Without(v, item, references), size)
    ensures Unreclaimable(Without(v, item, references), numBlocks) == Unreclaimable(v, numBlocks)
  {
    var w := Without(v, item, references);
    forall b: nat ensures Pinned(w.owned, b) == Pinned(v.owned, b) { PinsUnchanged(v.owned, ItemOwner(v, item), b); }
    forall b: nat ensures HeldByStuckNode(v, b) == HeldByStuckNode(w, b) {
      if HeldByStuckNode(v, b) {
        var i :| i in v.nodes && v.nodes[i].block == b && Stuck(v, i);
        StuckSurvives(v, size, item, references, i);
      }
      if HeldByStuckNode(w, b) {
        var i :| i in w.nodes && w.nodes[i].block == b && Stuck(w, i);
        StuckBefore(v, size, item, references, i);
      }
    }
  }

  // With no freeable candidate left, every block still in use is unreclaimable.
  lemma NothingLeftToFree(v: View, size: nat, numBlocks: nat, b: nat)
    requires Coherent(v, size) && b < numBlocks && Holders(v.owned, b) != {}
    requires forall item | Candidate(v, item) :: !Freeable(v, item)
    ensures b in Unreclaimable(v, numBlocks)
  {
    if !Pinned(v.owned, b) {
      var o :| o in CacheHolders(v.owned, b);
      match o
      case Node(i) =>
        assert v.owned[Node(i)] == [v.nodes[i].block];
        var leaf := LeafBelow(v, size, i);
        assert Candidate(v, NodeItem(leaf));
        assert v.nodes[leaf].block in ItemBlocks(v, NodeItem(leaf));
        assert Stuck(v, i) && HeldByStuckNode(v, b);
      case Exact(e) =>
        UnpinnedEntryIsFreeable(v, e, b);
    }
  }

  lemma UnpinnedEntryIsFreeable(v: View, e: nat, b: nat)
    requires Owns(v) && Exact(e) in v.owned && b in v.owned[Exact(e)] && !Pinned(v.owned, b)
    ensures exists item | Candidate(v, item) :: Freeable(v, item)
  {
    assert e in EntryIds(v.exact);
    var k :| k in v.exact && v.exact[k].entry == e;
    assert b in ItemBlocks(v, ExactItem(k));
    assert Candidate(v, ExactItem(k)) && Freeable(v, ExactItem(k));
  }

  lemma UnreclaimableIsUsed(v: View, numBlocks: nat, b: nat)
    requires Owns(v) && b in Unreclaimable(v, numBlocks)
    ensures Holders(v.owned, b) != {}
  {
    if Pinned(v.owned, b) {
      assert CacheHolders(v.owned, b) <= Holders(v.owned, b);
    } else {
      var i :| i in v.nodes && v.nodes[i].block == b && Stuck(v, i);
      assert Node(i) in Holders(v.owned, b);
    }
  }

  // How many blocks are free is how many nobody holds.
  lemma FreeCount(owned: Ledger, refs: seq<nat>, free: seq<nat>, used: set<nat>)
    requires Counts(owned, refs) && FreeListOf(free, refs)
    requires forall b: nat :: b in used <==> b < |refs| && Holders(owned, b) != {}
    ensures |free| + |used| == |refs|
  {
    forall b: nat | b < |refs| { UncountedMeansUnlisted(owned, refs, b); }
    DistinctSize(free);
    assert Below(|refs|) == Members(free) + used;
    assert Members(free) !! used;
  }

  ghost function Below(n: nat): (r: set<nat>)
    ensures |r| == n && forall b: nat :: b in r <==> b < n
  {
    if n == 0 then {} else Below(n - 1) + {n - 1}
  }

  // Among finitely many items with distinct stamps one is least recently used.
  lemma {:induction false} LeastRecent(v: View, items: set<Item>) returns (least: Item)
    requires items != {} && forall a | a in items :: Has(v, a)
    ensures least in items && forall a | a in items :: Stamp(v, least) <= Stamp(v, a)
    decreases items
  {
    least :| least in items;
    if items != {least} {
      var other := LeastRecent(v, items - {least});
      if Stamp(v, other) < Stamp(v, least) { least := other; }
    }
  }
}
