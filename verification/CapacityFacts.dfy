// Facts about the store that the engine's capacity path rests on.
module CapacityFacts {
  import opened Common
  import opened Ownership
  import opened BlockAllocation
  import opened Paging
  import opened PrefixForest
  import opened Reclaiming
  import opened PrefixCaching
  import opened PagedStore
  import opened GreedyDecoding
  import opened Lifecycle
  import opened Arrival
  import opened Yielding
  import opened Prospects

  // A coherent cache over a well-formed ledger only offers live blocks that it owns.
  lemma CoherentIsAlive(v: View, s: Store)
    requires Coherent(v, s.size) && WellFormed(s.owned, |s.pool|)
    requires s.owned == v.owned && s.catalog == Catalog(v) && s.exact == v.exact
    ensures CacheAlive(s)
  {
    hide Forest, Stamped, Referenced, Owns, WellFormed, CacheHolders;
    CoherentFacts(v, s.size);
    forall p | p in s.catalog ensures s.catalog[p] < |s.pool| && CacheHolders(s.owned, s.catalog[p]) != {} {
      NodeAlive(v, |s.pool|, v.index[p]);
    }
    forall key, b | key in s.exact && b in s.exact[key].blocks ensures b < |s.pool| && CacheHolders(s.owned, b) != {} {
      EntryAlive(v, |s.pool|, key, b);
    }
  }

  lemma NodeAlive(v: View, pages: nat, i: nat)
    requires Owns(v) && WellFormed(v.owned, pages) && i in v.nodes
    ensures v.nodes[i].block < pages && CacheHolders(v.owned, v.nodes[i].block) != {}
  {
    assert v.nodes[i].block in v.owned[Node(i)];
    assert Node(i) in CacheHolders(v.owned, v.nodes[i].block);
  }

  lemma EntryAlive(v: View, pages: nat, key: seq<Token>, b: nat)
    requires Owns(v) && WellFormed(v.owned, pages) && key in v.exact && b in v.exact[key].blocks
    ensures b < pages && CacheHolders(v.owned, b) != {}
  {
    assert Exact(v.exact[key].entry) in CacheHolders(v.owned, b);
  }

  // Owner of the slots that padded graph rows write.
  const DUMMY_ROWS := "__cuda_graph_dummy_rows__"

  lemma ExactBlocks(k: nat, size: nat)
    requires size > 0
    ensures BlocksFor(k * size, size) == k
  {
    var q := BlocksFor(k * size, size);
    assert (k + 1) * size == k * size + size;
    assert (q + 1) * size == q * size + size;
    if q < k { MulMono(q + 1, k, size); }
    if q > k { MulMono(k + 1, q, size); }
  }

  lemma NoBlocks(size: nat)
    requires size > 0
    ensures BlocksFor(0, size) == 0
  {
    ExactBlocks(0, size);
  }

  // Nothing but the reserved rows, an empty cache and no requests.
  lemma InitialInv(st: State, predict: seq<Slot> -> Token, eos: set<Token>)
    requires Shaped(st.store) && st.store.catalog == map[] && st.store.exact == map[]
    requires st.gens == map[] && st.active == {} && st.waiting == []
    requires st.store.tables.Keys == st.reserved && st.reserved <= {DUMMY_ROWS}
    requires forall o | o in st.store.owned :: o == Request(DUMMY_ROWS)
    requires forall r | r in st.reserved :: st.store.tables[r].length == 0
    ensures Inv(st, predict, eos)
  {
    forall id | id in st.store.tables ensures Exclusive(st.store, id) {
      var t := st.store.tables[id];
      forall k | 0 <= k < |t.blocks| ensures Private(st.store.owned, id, t.blocks[k]) {
        assert t.blocks[k] in st.store.owned[Request(id)];
        assert forall o :: o in Holders(st.store.owned, t.blocks[k]) <==> o == Request(DUMMY_ROWS);
      }
    }
  }

  lemma Unchanged(s: Store, id: string)
    requires Shaped(s) && id in s.tables
    ensures OthersUndisturbed(s, s, id) && SameRun(s, s, id) && Undisturbed(s, s, id)
  {
    forall other | other in s.tables ensures Undisturbed(s, s, other) { TablePagesInPool(s, other); }
  }

  // With an aligned length there is no partly filled block to share.
  lemma AlignedIsPrivate(s: Store, id: string)
    requires s.size > 0 && id in s.tables && Exclusive(s, id) && s.tables[id].length % s.size == 0
    ensures AllPrivate(s, id)
  {
    var t := s.tables[id];
    DivBounds(t.length, s.size);
    forall k | 0 <= k < |t.blocks| && (k + 1) * s.size > t.length ensures Private(s.owned, id, t.blocks[k]) {
      if k * s.size < t.length {
        MulLess(k, t.length / s.size, s.size);
        MulMono(k + 1, t.length / s.size, s.size);
      }
    }
  }

  // A tail with a single reference is the request's own.
  lemma SingleTailIsPrivate(s: Store, id: string)
    requires Shaped(s) && id in s.tables && Exclusive(s, id)
    requires |Holders(s.owned, Last(s.tables[id].blocks))| <= 1
    ensures AllPrivate(s, id) && OwnTail(s, id)
  {
    TablePagesInPool(s, id);
    var t := s.tables[id];
    var tail := Last(t.blocks);
    assert tail in s.owned[Request(id)] && Request(id) in Holders(s.owned, tail);
    SameSizeSubset({Request(id)}, Holders(s.owned, tail));
  }

  // A manager with one slot set aside per row of the widest graph, whole pages at a time.
  method NewTables(numBlocks: nat, blockSize: nat, graphRows: nat) returns (m: KVBlockManager)
    requires blockSize > 0 && BlocksFor(graphRows, blockSize) < numBlocks
    ensures m.Valid() && fresh(m) && fresh(m.allocator)
    ensures m.allocator.numBlocks == numBlocks && m.allocator.blockSize == blockSize
    ensures m.requests.Keys == if graphRows > 0 then {DUMMY_ROWS} else {}
    ensures graphRows > 0 ==> m.requests[DUMMY_ROWS].length == 0
    ensures graphRows > 0 ==> |m.requests[DUMMY_ROWS].blocks| == BlocksFor(graphRows, blockSize)
    ensures forall o | o in m.allocator.allocations :: o == Request(DUMMY_ROWS)
  {
    hide Counts, FreeListOf;
    m := new KVBlockManager(numBlocks, blockSize);
    if graphRows > 0 {
      var pages := BlocksFor(graphRows, blockSize);
      ExactBlocks(pages, blockSize);
      MulLess(0, pages, blockSize);
      MulMono(1, pages, blockSize);
      assert |DUMMY_ROWS| > 0;
      var rows := m.Reserve(DUMMY_ROWS, pages * blockSize, 0);
      assert |m.requests[DUMMY_ROWS].blocks| == pages;
    }
  }


  lemma TableFits(s: Store, predict: seq<Slot> -> Token, id: string)
    requires Consistent(s, predict) && id in s.tables
    ensures s.tables[id].length <= s.tables[id].Capacity(s.size)
  {
  }

  // Needing another block means the target lies past the present capacity.
  lemma RoomNeeded(target: nat, blocks: nat, size: nat)
    requires size > 0 && BlocksFor(target, size) > blocks
    ensures target > blocks * size
  {
    MulMono(blocks + 1, BlocksFor(target, size), size);
    assert (blocks + 1) * size == blocks * size + size;
  }

  lemma PoppedSplits(free: seq<nat>, refs: seq<nat>, count: nat)
    requires FreeListOf(free, refs) && count <= |free|
    ensures Distinct(Popped(free, count)) && forall b: nat | b in Popped(free, count) :: b in free
  {
    PoppedSplitsFree(free, count);
  }

  lemma ExtendKeepsAll(s: Store, id: string, more: seq<nat>, predict: seq<Slot> -> Token)
    requires Consistent(s, predict) && id in s.tables && AllPrivate(s, id)
    requires Distinct(more) && forall b: nat | b in more :: b < |s.pool| && Holders(s.owned, b) == {}
    ensures var t := s.tables[id].(blocks := s.tables[id].blocks + more);
            var w := WithTable(s, id, t);
            && Consistent(w, predict) && AllPrivate(w, id) && OthersUndisturbed(s, w, id) && SameRun(s, w, id)
  {
    hide Exclusive, EntryHolds, Undisturbed, CatalogHolds, CacheAlive, Shaped, AllPrivate, Stored;
    ExtendKeeps(s, id, more, predict);
    forall values | Stored(s.pool, s.size, s.tables[id].blocks, values)
      ensures Stored(s.pool, s.size, s.tables[id].blocks + more, values)
    {
      ExtendedStillStores(s, id, more, values);
    }
  }

  lemma SameRunLength(a: Store, b: Store, id: string)
    requires SameRun(a, b, id)
    ensures b.tables[id].length == a.tables[id].length
  {
  }

  lemma EvictedKeepsPrivate(a: Store, b: Store, id: string)
    requires id in a.tables && forall other | other in a.tables :: Undisturbed(a, b, other)
    ensures OthersUndisturbed(a, b, id) && SameRun(a, b, id) && (AllPrivate(a, id) ==> AllPrivate(b, id))
    ensures b.tables[id] == a.tables[id]
  {
    hide SameRun;
    UndisturbedIsSameRun(a, b, id);
  }

  lemma ConsistentUnchanged(s: Store, predict: seq<Slot> -> Token, id: string)
    requires Consistent(s, predict) && id in s.tables
    ensures OthersUndisturbed(s, s, id) && SameRun(s, s, id)
  {
    Unchanged(s, id);
  }

  lemma TableFacts(s: Store, predict: seq<Slot> -> Token, id: string)
    requires Consistent(s, predict) && id in s.tables
    ensures s.tables[id].blocks != [] && Distinct(s.tables[id].blocks)
    ensures Last(s.tables[id].blocks) < |s.pool|
  {
    TablePagesInPool(s, id);
    assert Last(s.tables[id].blocks) in s.tables[id].blocks;
  }

  lemma CopyTailKeeps(s: Store, w: Store, id: string, spare: nat, predict: seq<Slot> -> Token)
    requires Consistent(s, predict) && id in s.tables && spare < |s.pool| && Holders(s.owned, spare) == {}
    requires s.tables[id].blocks != [] && Last(s.tables[id].blocks) < |s.pool|
    requires w == Copied(s, id, spare)
    ensures Consistent(w, predict) && AllPrivate(w, id)
    ensures OthersUndisturbed(s, w, id) && SameRun(s, w, id)
  {
    hide Exclusive, EntryHolds, Undisturbed, Copied, AllPrivate, SameRun, CatalogHolds, CacheAlive, Shaped;
    CopyKeeps(s, id, spare, predict);
    CopyKeepsRun(s, id, spare);
  }

  // Changes among request owners do not concern the prefix cache.
  lemma RequestsOnly(v: View, owned: Ledger, size: nat)
    requires Coherent(v, size)
    requires forall o: Owner | !o.Request? :: (o in owned <==> o in v.owned) && (o in owned ==> owned[o] == v.owned[o])
    ensures Coherent(v.(owned := owned), size)
    ensures Catalog(v.(owned := owned)) == Catalog(v)
  {
    hide Forest, Owns, Referenced, Catalog, CacheHolders;
    var w := v.(owned := owned);
    SameForestKeeps(v, w, size);
    CacheOwnersOnly(v, w);
    SameStamps(v, w);
  }

  lemma CacheOwnersOnly(v: View, w: View)
    requires Owns(v) && Referenced(v) && w == v.(owned := w.owned)
    requires forall o: Owner | !o.Request? ::
               (o in w.owned <==> o in v.owned) && (o in w.owned ==> w.owned[o] == v.owned[o])
    ensures Owns(w) && Referenced(w)
  {
    forall b: nat ensures CacheHolders(w.owned, b) == CacheHolders(v.owned, b) { }
  }

  lemma SameStamps(v: View, w: View)
    requires Stamped(v) && w == v.(owned := w.owned)
    ensures Stamped(w)
  {
    FewerStamps(v, w);
  }

  lemma CopyKeepsRun(s: Store, id: string, spare: nat)
    requires Shaped(s) && id in s.tables && spare < |s.pool| && Holders(s.owned, spare) == {}
    requires s.tables[id].blocks != [] && Last(s.tables[id].blocks) < |s.pool|
    ensures SameRun(s, Copied(s, id, spare), id)
  {
    forall values | Stored(s.pool, s.size, s.tables[id].blocks, values)
      ensures Stored(Copied(s, id, spare).pool, s.size, Copied(s, id, spare).tables[id].blocks, values)
    {
      CopiedStillStores(s, id, spare, values);
    }
  }

  lemma EvictedKeepsRun(a: Store, b: Store, id: string)
    requires id in a.tables && forall other | other in a.tables :: Undisturbed(a, b, other)
    ensures OthersUndisturbed(a, b, id) && SameRun(a, b, id)
  {
    hide Undisturbed, SameRun;
    UndisturbedIsSameRun(a, b, id);
  }

  lemma InsertedIsDistinct(queue: seq<string>, k: nat, id: string)
    requires Distinct(queue) && id !in queue && k <= |queue|
    ensures Distinct(queue[..k] + [id] + queue[k..])
    ensures forall x :: x in queue[..k] + [id] + queue[k..] <==> x in queue || x == id
  {
    assert queue == queue[..k] + queue[k..];
  }

  lemma PreemptedOk(g: Generation, epoch: nat, predict: seq<Slot> -> Token, eos: set<Token>)
    requires GenOk(g, predict, eos) && g.Live()
    ensures GenOk(g.Preempted(epoch), predict, eos)
  {
  }

  lemma RoomKeepsRow(a: Store, b: Store, id: string, g: Generation, target: nat)
    requires a.size > 0 && RowOk(a, id, g) && SameRun(a, b, id) && WithinPrompt(g, target)
    requires |b.tables[id].blocks| <= |a.tables[id].blocks| || |b.tables[id].blocks| == BlocksFor(target, a.size)
    ensures RowOk(b, id, g)
  {
    if g.phase.Prefilling? && !g.resuming { BlocksMonotone(target, |g.prompt|, a.size); }
    RowSameRun(a, b, id, g);
  }

  lemma StartOfYield(st: State, id: string, epoch: nat, predict: seq<Slot> -> Token, eos: set<Token>)
    requires Inv(st, predict, eos) && id in st.active
    ensures Yielded(st, st, id, epoch)
  {
    hide Exclusive, CacheAlive, CatalogHolds, EntryHolds, GenOk, RowOk, Undisturbed;
    ActiveRow(st, id, predict, eos);
    Unchanged(st.store, id);
    forall x | x in st.active ensures Undisturbed(st.store, st.store, x) { Unchanged(st.store, x); }
    YieldedNothing(st, id, epoch);
  }

  lemma SingletonActive(active: set<string>, id: string)
    requires id in active && |active| <= 1
    ensures active == {id}
  {
    SameSizeSubset({id}, active);
  }

  lemma NewestFacts(st: State, id: string, victim: string)
    requires Newest(st, victim) && id in st.active
    ensures victim in st.active
    ensures victim == id && |st.active| > 1 ==> st.active != {id}
  {
  }

  lemma RoomEnough(s: Store, id: string, target: nat, predict: seq<Slot> -> Token)
    requires Consistent(s, predict) && WriteReady(s, id, target)
    ensures s.size > 0 && BlocksFor(target, s.size) <= |s.tables[id].blocks|
  {
    if BlocksFor(target, s.size) > |s.tables[id].blocks| { RoomNeeded(target, |s.tables[id].blocks|, s.size); }
  }

  // A partly filled tail that somebody else holds too must be copied before it is written.
  ghost predicate CopyNeeded(s: Store, id: string)
    requires id in s.tables && s.size > 0
  {
    s.tables[id].length % s.size != 0 && |Holders(s.owned, Last(s.tables[id].blocks))| > 1
  }

  // How many free blocks it takes to write up to `target` tokens.
  ghost function Needed(s: Store, id: string, target: nat): nat
    requires id in s.tables && s.size > 0
  {
    var blocks := |s.tables[id].blocks|;
    (if target > s.tables[id].length && CopyNeeded(s, id) then 1 else 0)
    + (if BlocksFor(target, s.size) > blocks then BlocksFor(target, s.size) - blocks else 0)
  }

  lemma AlignedNeedsNoCopy(s: Store, predict: seq<Slot> -> Token, id: string)
    requires Consistent(s, predict) && id in s.tables && s.tables[id].length % s.size == 0
    ensures AllPrivate(s, id) && !CopyNeeded(s, id) && OwnTail(s, id)
  {
    hide EntryHolds, CacheAlive, CatalogHolds;
    AlignedIsPrivate(s, id);
  }

  // ---- looking for room -------------------------------------------------------------------

  // The last block is the request's own, or full.
  ghost predicate OwnTail(s: Store, id: string) {
    && id in s.tables && s.size > 0
    && (s.tables[id].length % s.size == 0 || Holders(s.owned, Last(s.tables[id].blocks)) == {Request(id)})
  }

  // The request could get room with everybody there.
  ghost predicate GetsNow(s: Store, id: string, target: nat) {
    id in s.tables && s.tables[id].blocks != [] && s.size > 0 && Attainable(s, id, target)
  }

  lemma GetsAmongAll(s: Store, id: string, target: nat)
    requires Shaped(s)
    ensures Gets(s, s.tables.Keys, id, target) <==> GetsNow(s, id, target)
  {
    AmongAll(s, s.tables.Keys);
  }

  lemma StartOfSearch(s: Store, predict: seq<Slot> -> Token, id: string)
    requires Consistent(s, predict) && id in s.tables
    ensures s.tables[id].blocks != [] && s.size > 0
  {
    TableFacts(s, predict, id);
  }

  lemma PressedRow(a: Store, b: Store, predict: seq<Slot> -> Token, id: string)
    requires Consistent(a, predict) && Pressed(a, b) && id in a.tables && b.tables == a.tables
    ensures SameProspects(a, b, id) && OthersPressed(a, b, {id})
  {
    hide Pressed;
    TableFacts(a, predict, id);
    PressedProspects(a, b, id);
    PressedOthers(a, b, {id});
  }

  lemma CopyTailProspects(s: Store, w: Store, id: string, spare: nat, predict: seq<Slot> -> Token)
    requires Consistent(s, predict) && id in s.tables && CopyNeeded(s, id)
    requires spare < |s.pool| && Holders(s.owned, spare) == {}
    requires s.tables[id].blocks != [] && Last(s.tables[id].blocks) < |s.pool| && w == Copied(s, id, spare)
    ensures SameProspects(s, w, id) && OthersPressed(s, w, {id}) && OwnTail(w, id)
  {
    hide CatalogHolds, EntryHolds, Exclusive, SameProspects, OthersPressed;
    CopiedProspects(s, w, id, spare);
    forall o | o in w.owned && o != Request(id) ensures spare !in w.owned[o] {
      assert o in Holders(s.owned, spare) <==> spare in s.owned[o];
    }
    assert spare in w.owned[Request(id)] by { assert w.tables[id].blocks[|w.tables[id].blocks| - 1] == spare; }
    assert Holders(w.owned, spare) == {Request(id)};
  }

  lemma SameProspectsNow(a: Store, b: Store, id: string, target: nat)
    requires SameProspects(a, b, id) && Shaped(a) && Shaped(b) && b.tables.Keys == a.tables.Keys
    requires target > a.tables[id].length
    ensures GetsNow(a, id, target) <==> GetsNow(b, id, target)
  {
    hide GetsNow, Shaped;
    GetsAmongAll(a, id, target);
    GetsAmongAll(b, id, target);
  }

  lemma NoTail(s: Store, v: View, id: string, target: nat, predict: seq<Slot> -> Token)
    requires Consistent(s, predict) && Shows(s, v) && NothingFreeable(v) && id in s.tables && CopyNeeded(s, id)
    requires Obtainable(s) <= 0 && target > s.tables[id].length
    ensures !GetsNow(s, id, target)
  {
    hide CatalogHolds, EntryHolds, Exclusive, Shows, Obtainable, NothingFreeable;
    TableFacts(s, predict, id);
    SharedForGood(s, v, id, target);
  }

  lemma NeedsMissing(s: Store, id: string, target: nat, predict: seq<Slot> -> Token)
    requires Consistent(s, predict) && OwnTail(s, id)
    ensures GetsNow(s, id, target) <==> Missing(s, id, target) <= Obtainable(s)
  {
    hide CatalogHolds, EntryHolds, Exclusive, Obtainable;
    TableFacts(s, predict, id);
    SettledTail(s, id, target);
  }

  lemma NoNewTokens(s: Store, id: string, predict: seq<Slot> -> Token)
    requires Consistent(s, predict) && id in s.tables
    ensures GetsNow(s, id, s.tables[id].length) <==> Missing(s, id, s.tables[id].length) <= Obtainable(s)
  {
    hide Obtainable;
    TableFacts(s, predict, id);
  }

  // ---- the oldest request -----------------------------------------------------------------

  // The request could get room if only it and the reserved rows were there.
  ghost predicate Servable(st: State, id: string, target: nat) {
    Gets(st.store, {id} + st.reserved, id, target)
  }

  // To the requests that are still there and not among these it was nothing but pressure eviction.
  ghost predicate Unhindered(a: State, b: State, ids: set<string>) {
    forall keep: set<string> | keep !! ids && keep <= b.active + b.reserved ::
      Pressed(Among(a.store, keep), Among(b.store, keep))
  }

  lemma UnhinderedTwice(a: State, b: State, c: State, first: set<string>, second: set<string>)
    requires Unhindered(a, b, first) && Unhindered(b, c, second) && c.active <= b.active && c.reserved == b.reserved
    ensures Unhindered(a, c, first + second)
  {
    hide Pressed;
    forall keep: set<string> | keep !! first + second && keep <= c.active + c.reserved
      ensures Pressed(Among(a.store, keep), Among(c.store, keep))
    {
      PressedTwice(Among(a.store, keep), Among(b.store, keep), Among(c.store, keep));
    }
  }

  lemma UnhinderedStore(a: State, after: Store, ids: set<string>)
    requires OthersPressed(a.store, after, ids)
    ensures Unhindered(a, a.(store := after), ids)
  {
    hide Pressed;
  }

  lemma UnhinderedSelf(st: State, ids: set<string>)
    ensures Unhindered(st, st, ids)
  {
    hide Pressed;
    forall keep: set<string> ensures Pressed(Among(st.store, keep), Among(st.store, keep)) {
      PressedSelf(Among(st.store, keep));
    }
  }

  // Nobody else notices when a request's pages are released.
  lemma ReleaseUnhinders(a: State, b: State, id: string)
    requires id in a.store.tables && b.store == Released(a.store, id) && id !in b.active + b.reserved
    ensures Unhindered(a, b, {})
  {
    forall keep: set<string> | keep <= b.active + b.reserved
      ensures Pressed(Among(a.store, keep), Among(b.store, keep))
    {
      assert Among(b.store, keep).owned == Among(a.store, keep).owned;
      PressedAlike(Among(a.store, keep), Among(b.store, keep));
    }
  }

  lemma UnhinderedOn(a: State, b: State, c: State, ids: set<string>)
    requires Unhindered(a, b, ids) && Unhindered(b, c, {}) && c.active <= b.active && c.reserved == b.reserved
    ensures Unhindered(a, c, ids)
  {
    hide Unhindered;
    UnhinderedTwice(a, b, c, ids, {});
    assert ids + {} == ids;
  }

  lemma UnhinderedMore(a: State, b: State, ids: set<string>, more: set<string>)
    requires Unhindered(a, b, ids) && ids <= more
    ensures Unhindered(a, b, more)
  {
    hide Pressed;
  }

  // Neither when pages are written or tokens committed.
  lemma HoldingsUnhinder(a: State, b: State, ids: set<string>)
    requires b.store.size == a.store.size && |b.store.pool| == |a.store.pool|
    requires b.store.owned == a.store.owned && b.store.catalog == a.store.catalog
    ensures Unhindered(a, b, ids)
  {
    forall keep: set<string> ensures Pressed(Among(a.store, keep), Among(b.store, keep)) {
      PressedAlike(Among(a.store, keep), Among(b.store, keep));
    }
  }

  // A request that took no part has the same future in store.
  lemma SameFuture(a: State, b: State, id: string, ids: set<string>, target: nat)
    requires Unhindered(a, b, ids) && ({id} + a.reserved) !! ids && id in b.active && b.reserved == a.reserved
    requires Shaped(a.store) && id in a.store.tables && id in b.store.tables && b.store.tables[id] == a.store.tables[id]
    ensures Servable(a, id, target) <==> Servable(b, id, target)
  {
    hide Attainable, Pressed;
    var keep := {id} + a.reserved;
    assert Pressed(Among(a.store, keep), Among(b.store, keep));
    PressedSize(Among(a.store, keep), Among(b.store, keep));
    if a.store.tables[id].blocks != [] {
      AttainableStays(Among(a.store, keep), Among(b.store, keep), id, target);
    }
  }

  // A request that has its room could have it alone.
  lemma RoomIsServable(st: State, id: string, target: nat, predict: seq<Slot> -> Token, eos: set<Token>)
    requires Inv(st, predict, eos) && id in st.active && WriteReady(st.store, id, target)
    ensures Servable(st, id, target)
  {
    hide RowOk, GenOk, EntryHolds, CatalogHolds, Obtainable, Among;
    ActiveRow(st, id, predict, eos);
    TableFacts(st.store, predict, id);
    RoomEnough(st.store, id, target, predict);
    if target > st.store.tables[id].length { PrivateTail(st.store, id, target); }
    ReachIsCounted(st.store);
    assert Attainable(st.store, id, target) by {
      if OwnTail(st.store, id) { NeedsMissing(st.store, id, target, predict); }
    }
    AttainableAmong(st.store, {id} + st.reserved, id, target);
  }

  lemma ReachIsCounted(s: Store)
    ensures Obtainable(s) >= 0
  {
    SubsetSize(OutOfReach(s), Below(|s.pool|));
  }

  // Writing needs a tail of one's own.
  lemma PrivateTail(s: Store, id: string, target: nat)
    requires Shaped(s) && WriteReady(s, id, target) && target > s.tables[id].length
    ensures OwnTail(s, id)
  {
    TablePagesInPool(s, id);
    var t := s.tables[id];
    DivBounds(t.length, s.size);
    assert (|t.blocks| - 1 + 1) * s.size == t.Capacity(s.size);
    assert Private(s.owned, id, t.blocks[|t.blocks| - 1]);
  }

  // Where the search of the oldest request stands: it is still the oldest, and what it could get
  // alone is what it could get alone at the start.
  ghost predicate Searching(a: State, now: State, id: string, target: nat) {
    && Unhindered(a, now, {id})
    && (Oldest(a, id) ==> Oldest(now, id) && (Servable(now, id, target) <==> Servable(a, id, target)))
  }

  lemma StartSearching(st: State, id: string, target: nat)
    ensures Searching(st, st, id, target)
  {
    UnhinderedSelf(st, {id});
  }

  lemma SearchedInVain(a: State, turn: State, after: Store, id: string, target: nat)
    requires Searching(a, turn, id, target) && OthersPressed(turn.store, after, {id})
    requires SameProspects(turn.store, after, id) && target > turn.store.tables[id].length
    ensures Searching(a, turn.(store := after), id, target)
  {
    hide Gets, Pressed, Unhindered, OthersPressed, Before;
    var now := turn.(store := after);
    UnhinderedStore(turn, after, {id});
    UnhinderedTwice(a, turn, now, {id}, {id});
    assert {id} + {id} == {id};
  }

  lemma SearchGoesOn(a: State, turn: State, now: State, id: string, victim: string, target: nat)
    requires Searching(a, turn, id, target) && victim != id && id in now.active
    requires victim in turn.store.tables && now.store == Released(turn.store, victim) && Shaped(turn.store)
    requires id in turn.store.tables
    requires now.active == turn.active - {victim} && now.reserved == turn.reserved && victim !in turn.reserved
    requires id !in turn.reserved && turn.active <= turn.gens.Keys && now.gens.Keys == turn.gens.Keys
    requires forall x | x in turn.gens :: now.gens[x].created == turn.gens[x].created
    ensures Searching(a, now, id, target)
  {
    hide Gets, Pressed, Unhindered, OthersPressed, Before, Shaped;
    ReleaseUnhinders(turn, now, victim);
    UnhinderedOn(a, turn, now, {id});
    SameFuture(turn, now, id, {}, target);
  }

  // Enough room with everybody there is enough alone.
  lemma FoundIsServable(a: State, turn: State, id: string, target: nat)
    requires Searching(a, turn, id, target) && Oldest(a, id) && GetsNow(turn.store, id, target)
    ensures Servable(a, id, target)
  {
    hide Attainable, Unhindered, Before;
    AttainableAmong(turn.store, {id} + turn.reserved, id, target);
  }

  lemma AloneIsEverybody(a: State, turn: State, id: string, target: nat)
    requires Searching(a, turn, id, target) && Oldest(a, id) && turn.active == {id} && Shaped(turn.store)
    requires turn.store.tables.Keys == turn.active + turn.reserved && !GetsNow(turn.store, id, target)
    ensures !Servable(a, id, target)
  {
    hide Attainable, Unhindered, Before;
    AmongAll(turn.store, {id} + turn.reserved);
  }

  lemma NewestIsNotOldest(a: State, turn: State, id: string, target: nat)
    requires Searching(a, turn, id, target) && Newest(turn, id) && turn.active != {id}
    ensures !Oldest(a, id)
  {
    hide Unhindered, Servable, Before;
    if Oldest(a, id) {
      var x :| x in turn.active && x != id;
      ArrivalOrder(KeyOf(turn.gens, x), KeyOf(turn.gens, id), KeyOf(turn.gens, x));
    }
  }

  // ---- steps of the search ----------------------------------------------------------------

  lemma RoomUnhindered(a: State, turn: State, after: Store, id: string)
    requires Unhindered(a, turn, {id}) && OthersPressed(turn.store, after, {id})
    ensures Unhindered(a, turn.(store := after), {id})
  {
    hide Unhindered, OthersPressed;
    UnhinderedStore(turn, after, {id});
    UnhinderedTwice(a, turn, turn.(store := after), {id}, {id});
    assert {id} + {id} == {id};
  }

  lemma RoomFound(a: State, turn: State, id: string, target: nat)
    requires GetsNow(turn.store, id, target)
    ensures Searching(a, turn, id, target) && Oldest(a, id) ==> Servable(a, id, target)
  {
    hide Unhindered, GetsNow, Servable;
    if Searching(a, turn, id, target) && Oldest(a, id) { FoundIsServable(a, turn, id, target); }
  }

  lemma RoomMissed(a: State, turn: State, after: Store, id: string, target: nat)
    requires OthersPressed(turn.store, after, {id}) && SameProspects(turn.store, after, id)
    ensures Searching(a, turn, id, target) && target > turn.store.tables[id].length ==>
              Searching(a, turn.(store := after), id, target)
  {
    hide Searching, OthersPressed;
    if Searching(a, turn, id, target) && target > turn.store.tables[id].length {
      SearchedInVain(a, turn, after, id, target);
    }
  }

  lemma NotEvenAlone(a: State, turn: State, id: string, target: nat, predict: seq<Slot> -> Token, eos: set<Token>)
    requires Inv(turn, predict, eos) && turn.active == {id} && !GetsNow(turn.store, id, target)
    ensures Searching(a, turn, id, target) && Oldest(a, id) ==> !Servable(a, id, target)
  {
    hide Searching, GetsNow, Servable, RowOk, GenOk, Oldest;
    if Searching(a, turn, id, target) && Oldest(a, id) { AloneIsEverybody(a, turn, id, target); }
  }

  lemma NewestGoes(a: State, now: State, id: string, victim: string, target: nat)
    requires Newest(now, victim) && (victim == id ==> now.active != {id})
    ensures Searching(a, now, id, target) && Oldest(a, id) ==> victim != id
  {
    hide Searching, Oldest, Newest;
    if Searching(a, now, id, target) && victim == id { NewestIsNotOldest(a, now, id, target); }
  }

  lemma VictimGone(a: State, turn: State, now: State, id: string, victim: string, target: nat,
                   predict: seq<Slot> -> Token, eos: set<Token>)
    requires Inv(turn, predict, eos) && id in turn.active && victim in turn.active && victim in turn.store.tables
    requires now.store == Released(turn.store, victim) && now.active == turn.active - {victim}
    requires now.reserved == turn.reserved
    requires victim in turn.gens && exists epoch :: now.gens == turn.gens[victim := turn.gens[victim].Preempted(epoch)]
    requires Unhindered(a, turn, {id})
    ensures Unhindered(a, now, {id})
    ensures victim != id && Searching(a, turn, id, target) ==> Searching(a, now, id, target)
  {
    hide RowOk, GenOk, Searching, Unhindered, EntryHolds, CatalogHolds, Exclusive;
    ReleaseUnhinders(turn, now, victim);
    UnhinderedOn(a, turn, now, {id});
    if victim != id && Searching(a, turn, id, target) { SearchGoesOn(a, turn, now, id, victim, target); }
  }

  // ---- the search as a whole --------------------------------------------------------------

  // Where the search stands before an attempt.
  ghost predicate Looking(a: State, now: State, id: string, target: nat, epoch: nat) {
    && Yielded(a, now, id, epoch) && Unhindered(a, now, {id}) && id in a.gens
    && (Searching(a, now, id, target) || target <= CommittedLength(a.gens[id]))
    && (GetsNow(a.store, id, target) ==> GetsNow(now.store, id, target) && now.active == a.active)
  }

  lemma StartLooking(st: State, id: string, target: nat, epoch: nat, predict: seq<Slot> -> Token, eos: set<Token>)
    requires Inv(st, predict, eos) && id in st.active
    ensures Looking(st, st, id, target, epoch)
  {
    hide Consistent, Inv, Yielded, Unhindered, Searching, GetsNow;
    StartOfYield(st, id, epoch, predict, eos);
    StartSearching(st, id, target);
    UnhinderedSelf(st, {id});
    ActiveRow(st, id, predict, eos);
  }

  // An attempt works exactly if there is room with those that are left, and one in vain leaves
  // the search where it was. The last one, alone, decides for the oldest request.
  lemma RoomTried(a: State, turn: State, after: Store, id: string, target: nat, epoch: nat, predict: seq<Slot> -> Token,
                  eos: set<Token>)
    requires Inv(turn, predict, eos) && Looking(a, turn, id, target, epoch) && id in turn.active
    requires id in turn.gens && turn.gens[id] == a.gens[id]
    requires OthersUndisturbed(turn.store, after, id) && OthersPressed(turn.store, after, {id})
    requires GetsNow(turn.store, id, target) || SameProspects(turn.store, after, id)
    ensures var now := turn.(store := after);
            && Yielded(a, now, id, epoch) && Unhindered(a, now, {id})
            && (GetsNow(turn.store, id, target) ==>
                  CommittedLength(a.gens[id]) < target && Oldest(a, id) ==> Servable(a, id, target))
            && (GetsNow(turn.store, id, target) && GetsNow(a.store, id, target) ==> turn.active == a.active)
            && (!GetsNow(turn.store, id, target) ==>
                  !GetsNow(a.store, id, target) && Looking(a, now, id, target, epoch))
            && (&& !GetsNow(turn.store, id, target) && turn.active == {id}
                && CommittedLength(a.gens[id]) < target && Oldest(a, id) ==>
                  !Servable(a, id, target))
  {
    hide Consistent, Inv, Yielded, Unhindered, Searching, GetsNow, Oldest, Servable, OthersPressed, SameProspects,
         OthersUndisturbed;
    ActiveRow(turn, id, predict, eos);
    YieldedStore(a, turn, after, id, epoch);
    RoomUnhindered(a, turn, after, id);
    if GetsNow(turn.store, id, target) {
      RoomFound(a, turn, id, target);
    } else {
      RoomMissed(a, turn, after, id, target);
      if turn.active == {id} { NotEvenAlone(a, turn, id, target, predict, eos); }
    }
  }

  // After a failed attempt the newest request goes; the oldest one never does.
  lemma VictimLeaves(a: State, turn: State, now: State, id: string, victim: string, target: nat, epoch: nat,
                     predict: seq<Slot> -> Token, eos: set<Token>)
    requires Inv(turn, predict, eos) && Looking(a, turn, id, target, epoch) && !GetsNow(a.store, id, target)
    requires id in turn.active && victim in turn.active && Newest(turn, victim)
    requires victim == id ==> turn.active != {id}
    requires victim in turn.store.tables && victim in turn.gens && OthersUndisturbed(turn.store, now.store, victim)
    requires now.store == Released(turn.store, victim) && now.active == turn.active - {victim}
    requires now.reserved == turn.reserved
    requires now.gens == turn.gens[victim := turn.gens[victim].Preempted(epoch)]
    ensures Yielded(a, now, id, epoch) && Unhindered(a, now, {id})
    ensures victim != id ==> Looking(a, now, id, target, epoch)
    ensures victim == id ==> !(CommittedLength(a.gens[id]) < target && Oldest(a, id))
  {
    hide Consistent, Inv, Yielded, Unhindered, Searching, GetsNow, Oldest, Newest, OthersUndisturbed, Released;
    ActiveRow(turn, id, predict, eos);
    YieldedMore(a, turn, now, id, victim, epoch);
    NewestGoes(a, turn, id, victim, target);
    assert exists e :: now.gens == turn.gens[victim := turn.gens[victim].Preempted(e)];
    VictimGone(a, turn, now, id, victim, target, predict, eos);
  }

  // Only the requester itself can be the oldest and lose its place.
  lemma OldestOthers(a: State, b: State, id: string, epoch: nat)
    requires Yielded(a, b, id, epoch)
    ensures forall x | Oldest(a, x) && x != id :: x in b.active
    ensures b.active == {id} ==> forall x | Oldest(a, x) :: x == id
  {
    hide Oldest, Undisturbed;
    forall x | Oldest(a, x) ensures x in b.active { OldestStays(a, b, id, epoch, x); }
  }

  lemma YieldedFacts(a: State, b: State, id: string, epoch: nat)
    requires Yielded(a, b, id, epoch)
    ensures forall x | x in b.active && x != id :: Undisturbed(a.store, b.store, x)
  {
  }

  // A request that finishes takes nothing from those that stay.
  lemma GoneUnhindered(a: State, middle: State, b: State, id: string)
    requires Unhindered(a, middle, {}) && id in middle.store.tables && id !in b.reserved
    requires b.store == Released(middle.store, id) && b.active == middle.active - {id} && b.reserved == middle.reserved
    ensures Unhindered(a, b, {})
  {
    hide Unhindered;
    ReleaseUnhinders(middle, b, id);
    UnhinderedOn(a, middle, b, {});
  }

  lemma NotReserved(st: State, id: string, predict: seq<Slot> -> Token, eos: set<Token>)
    requires InvBut(st, id, predict, eos) && id in st.active
    ensures id !in st.reserved
  {
  }

  lemma OneReleased(a: State, middle: State, b: State, id: string, predict: seq<Slot> -> Token, eos: set<Token>)
    requires Inv(middle, predict, eos) && Unhindered(a, middle, {id}) && middle.active == {id} && b.active == {}
    requires b.reserved == middle.reserved && id in middle.store.tables && b.store == Released(middle.store, id)
    ensures Unhindered(a, b, {id})
  {
    hide RowOk, GenOk, Consistent, Unhindered;
    ReleaseUnhinders(middle, b, id);
    UnhinderedOn(a, middle, b, {id});
  }
}
