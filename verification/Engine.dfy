// The continuous-batching engine with its FCFS scheduler
// (engine/batching/continuous_batching.py, engine/scheduler/scheduler.py).
module ServingEngine {
  import opened Common
  import opened Ownership
  import opened BlockAllocation
  import opened Paging
  import opened PrefixForest
  import opened Reclaiming
  import opened PrefixCaching
  import opened PagedStore
  import opened GreedyDecoding
  import opened Lifecycle
  import opened DevicePool
  import opened Arrival
  import opened Yielding
  import opened Batching
  import opened CapacityFacts
  import opened Completion
  import opened Admission
  import opened DraftAcceptance
  import opened PrefillPlanning
  import opened Iterations
  import opened Prospects
  import opened Alone
  import opened Draining
  import opened Histories

  // Serving limits: concurrently active requests, queue length, prefill chunk and per-step
  // prefill budget, speculation depth (0 disables it), longest request (0 means unlimited),
  // and whether decode and prefill share one forward pass.
  datatype Limits = Limits(
    maxActive: nat, maxWaiting: Option<nat>, chunk: nat, budget: nat, depth: nat, maxModelLen: nat, fused: bool)

  class Engine {
    const manager: KVBlockManager
    const cache: PrefixCache
    const pool: PagePool
    const predict: seq<Slot> -> Token
    const eos: set<Token>
    const limits: Limits
    const reservedBlocks: nat
    ghost const reserved: set<string>
    ghost const aside: seq<nat>
    var gens: map<string, Generation>
    var active: set<string>
    var waiting: seq<string>
    var prefillOrder: seq<string>
    var epoch: nat

    constructor (numBlocks: nat, blockSize: nat, cacheBlocks: nat, graphRows: nat, limits: Limits,
                 eos: set<Token>, predict: seq<Slot> -> Token)
      requires blockSize > 0 && BlocksFor(graphRows, blockSize) < numBlocks
      requires limits.maxActive > 0 && limits.chunk > 0 && limits.budget > 0
      ensures Steady() && gens == map[] && active == {} && waiting == []
      ensures this.predict == predict && this.eos == eos && this.limits == limits
      ensures reserved == if graphRows > 0 then {DUMMY_ROWS} else {}
      ensures graphRows > 0 ==> |manager.requests[DUMMY_ROWS].blocks| == BlocksFor(graphRows, blockSize)
      ensures fresh(manager) && fresh(manager.allocator) && fresh(cache) && fresh(pool) && fresh(pool.cells)
      ensures manager.allocator.numBlocks == numBlocks && manager.allocator.blockSize == blockSize
      ensures cache.maxBlocks == cacheBlocks && reservedBlocks == BlocksFor(graphRows, blockSize)
    {
      hide Counts, FreeListOf, Coherent, Inv, BlocksFor, Mirrors, WellFormed, Catalog;
      NoBlocks(blockSize);
      var m := NewTables(numBlocks, blockSize, graphRows);
      manager := m;
      cache := new PrefixCache(m, cacheBlocks);
      pool := new PagePool(numBlocks, blockSize);
      this.predict, this.eos, this.limits := predict, eos, limits;
      reservedBlocks := BlocksFor(graphRows, blockSize);
      reserved := if graphRows > 0 then {DUMMY_ROWS} else {};
      aside := if graphRows > 0 then m.requests[DUMMY_ROWS].blocks else [];
      gens, active, waiting, prefillOrder, epoch := map[], {}, [], [], 0;
      new;
      InitialInv(Snapshot(), predict, eos);
    }

    ghost predicate Wired()
      reads this, manager, manager.allocator, cache
    {
      && cache.manager == manager && cache.Valid() && reserved <= {DUMMY_ROWS}
      && limits.maxActive > 0 && limits.chunk > 0 && limits.budget > 0
      && pool.Valid() && pool.blocks == manager.allocator.numBlocks && pool.size == manager.allocator.blockSize
      && |aside| == reservedBlocks < manager.allocator.numBlocks
      && (forall r | r in reserved :: r in manager.requests && manager.requests[r].blocks == aside)
    }

    ghost function KvStore(): Store
      requires Wired()
      reads this, manager, manager.allocator, cache, pool.cells
    {
      Store(manager.allocator.blockSize, manager.allocator.allocations, manager.requests, cache.Published(),
            cache.exact, pool.Pages())
    }

    // The store part of the invariant, which the capacity path keeps.
    ghost predicate StoreValid()
      reads this, manager, manager.allocator, cache, pool.cells
    {
      Wired() && Consistent(KvStore(), predict)
    }

    ghost function Snapshot(): State
      requires Wired()
      reads this, manager, manager.allocator, cache, pool.cells
    {
      State(KvStore(), gens, active, waiting, reserved)
    }

    // Every active request has its place in the prefill round robin.
    ghost predicate InLine()
      reads this
    {
      Distinct(prefillOrder) && forall x :: x in prefillOrder <==> x in active
    }

    ghost predicate Valid()
      reads this, manager, manager.allocator, cache, pool.cells
    {
      Wired() && Inv(Snapshot(), predict, eos) && InLine()
    }

    // The cache may keep as many blocks as there are.
    predicate Roomy() {
      cache.maxBlocks >= manager.allocator.numBlocks
    }

    // What its clients have to reckon with.
    ghost function Bounds(): (b: Bounds)
      reads this
      ensures b.maxWaiting == limits.maxWaiting && b.maxModelLen == limits.maxModelLen
      ensures b.capacity + reservedBlocks * manager.allocator.blockSize
           == manager.allocator.numBlocks * manager.allocator.blockSize
    {
      Histories.Bounds(limits.maxWaiting, limits.maxModelLen,
                       (manager.allocator.numBlocks - reservedBlocks) * manager.allocator.blockSize)
    }

    // Valid but for request `id`, whose K/V has just been committed.
    ghost predicate ValidBut(id: string)
      reads this, manager, manager.allocator, cache, pool.cells
    {
      Wired() && InvBut(Snapshot(), id, predict, eos) && InLine()
    }

    // Valid, and nobody waits in vain: what holds between iterations.
    ghost predicate Steady()
      reads this, manager, manager.allocator, cache, pool.cells
    {
      Valid() && Timely(Snapshot(), epoch) && Brisk(Snapshot())
    }

    // Gives cached memory back under pressure; no request notices. It reaches its goal exactly
    // if the goal is within reach.
    method Evict(required: nat)
      requires StoreValid()
      modifies cache, manager.allocator
      ensures StoreValid() && Pressed(old(KvStore()), KvStore())
      ensures forall id | id in manager.requests :: Undisturbed(old(KvStore()), KvStore(), id)
      ensures |manager.allocator.freeBlocks| >= |old(manager.allocator.freeBlocks)|
      ensures Obtainable(KvStore()) == old(Obtainable(KvStore()))
      ensures |manager.allocator.freeBlocks| >= required <==> required <= Obtainable(KvStore())
      ensures |manager.allocator.freeBlocks| < required ==> NothingFreeable(cache.Snapshot())
    {
      hide Coherent, Counts, FreeListOf, Unreclaimable, OutOfReach, Consistent, Mirrors, WellFormed, Catalog,
           Undisturbed, Evictable, Pressed, PressureOnly, Shows;
      ghost var before, v := KvStore(), cache.Snapshot();
      ForestShown();
      ReachShown(before, v);
      var freed := cache.EvictUntilFree(required);
      ForestShown();
      PressureShown(before, v, KvStore(), cache.Snapshot());
      ReachStays(before, KvStore());
      CoherentIsAlive(cache.Snapshot(), KvStore());
      EvictKeeps(before, KvStore(), predict);
    }

    lemma ForestShown()
      requires Wired()
      ensures Shows(KvStore(), cache.Snapshot())
    {
      hide Forest, Owns, Referenced, Stamped, Counts, FreeListOf, WellFormed, Mirrors;
      CoherentFacts(cache.Snapshot(), manager.allocator.blockSize);
    }

    // What is free is within reach.
    lemma FreeIsObtainable()
      requires Wired()
      ensures |manager.allocator.freeBlocks| <= Obtainable(KvStore())
    {
      hide Forest, Owns, Referenced, Stamped, Counts, FreeListOf, Unreclaimable, OutOfReach, Used;
      cache.FreeAndUsed();
      UnreclaimableWithinUsed(cache.Snapshot(), manager.allocator.blockSize, manager.allocator.numBlocks);
      ForestShown();
      ReachShown(KvStore(), cache.Snapshot());
    }

    // Copies a shared partial tail before anything is written into its unused slots. What the
    // request can get is the same afterwards, whether it worked or not.
    method EnsureWritableTail(id: string) returns (ok: bool)
      requires StoreValid() && id in manager.requests && id !in reserved
      modifies manager, manager.allocator, cache, pool.cells
      ensures StoreValid() && manager.requests.Keys == old(manager.requests.Keys)
      ensures OthersUndisturbed(old(KvStore()), KvStore(), id) && SameRun(old(KvStore()), KvStore(), id)
      ensures |manager.requests[id].blocks| == |old(manager.requests)[id].blocks|
      ensures SameProspects(old(KvStore()), KvStore(), id) && OthersPressed(old(KvStore()), KvStore(), {id})
      ensures ok ==> AllPrivate(KvStore(), id) && OwnTail(KvStore(), id)
      ensures !ok ==> && CopyNeeded(KvStore(), id) && Obtainable(KvStore()) <= 0
                      && manager.allocator.freeBlocks == [] && NothingFreeable(cache.Snapshot())
    {
      hide Counts, FreeListOf, Coherent, Consistent, AllPrivate, Obtainable, NothingFreeable, CopyNeeded, SameRun,
           OwnTail, OthersUndisturbed, Mirrors, WellFormed, Catalog, Undisturbed, SameProspects, OthersPressed, Pressed;
      ghost var before := KvStore();
      ConsistentUnchanged(before, predict, id);
      SelfProspects(before, id);
      if manager.requests[id].length % manager.allocator.blockSize == 0 {
        AlignedNeedsNoCopy(before, predict, id);
        return true;
      }
      var single := TailIsSingle(id);
      if single {
        return true;
      }
      if manager.allocator.freeBlocks == [] {
        Evict(1);
        EvictedKeepsRun(before, KvStore(), id);
        EvictedKeepsPrivate(before, KvStore(), id);
        PressedRow(before, KvStore(), predict, id);
      }
      ghost var middle, v := KvStore(), cache.Snapshot();
      single := TailIsSingle(id);
      if single {
        return true;
      }
      ok := CopyTail(id);
      assert !ok ==> cache.Snapshot() == v && KvStore() == middle;
      OthersTransitive(before, middle, KvStore(), id);
      SameRunTransitive(before, middle, KvStore(), id);
      OthersPressedTwice(before, middle, KvStore(), {id});
      SameProspectsTwice(before, middle, KvStore(), id);
    }

    method TailIsSingle(id: string) returns (single: bool)
      requires StoreValid() && id in manager.requests && manager.requests[id].length % manager.allocator.blockSize != 0
      ensures single <==> !CopyNeeded(KvStore(), id)
      ensures single ==> AllPrivate(KvStore(), id) && OwnTail(KvStore(), id)
    {
      hide FreeListOf, Coherent, EntryHolds, CatalogHolds, CacheAlive, Exclusive, AllPrivate;
      TablePagesInPool(KvStore(), id);
      var tail := Last(manager.requests[id].blocks);
      assert tail in manager.requests[id].blocks;
      single := manager.allocator.refcounts[tail] <= 1;
      if single { SingleTailIsPrivate(KvStore(), id); }
    }

    // Swaps the shared tail for a fresh block and copies the page.
    method CopyTail(id: string) returns (ok: bool)
      requires StoreValid() && id in manager.requests && id !in reserved && CopyNeeded(KvStore(), id)
      modifies manager, manager.allocator, pool.cells
      ensures StoreValid() && manager.requests.Keys == old(manager.requests.Keys)
      ensures OthersUndisturbed(old(KvStore()), KvStore(), id) && SameRun(old(KvStore()), KvStore(), id)
      ensures |manager.requests[id].blocks| == |old(manager.requests)[id].blocks|
      ensures SameProspects(old(KvStore()), KvStore(), id) && OthersPressed(old(KvStore()), KvStore(), {id})
      ensures ok ==> AllPrivate(KvStore(), id) && OwnTail(KvStore(), id)
      ensures ok <==> old(manager.allocator.freeBlocks) != []
      ensures !ok ==> KvStore() == old(KvStore()) && manager.allocator.freeBlocks == old(manager.allocator.freeBlocks)
    {
      hide Counts, FreeListOf, Coherent, Consistent, AllPrivate, Private, Shaped, Mirrors, WellFormed, Catalog, SameRun,
           OthersUndisturbed, SameProspects, OthersPressed, OwnTail;
      ghost var before := KvStore();
      TableFacts(before, predict, id);
      ConsistentUnchanged(before, predict, id);
      SelfProspects(before, id);
      var swapped := SwapTail(id);
      if !swapped.Ok? {
        return false;
      }
      pool.CopyBlock(swapped.value.0, swapped.value.1);
      CopyTailKeeps(before, KvStore(), id, swapped.value.1, predict);
      CopyTailProspects(before, KvStore(), id, swapped.value.1, predict);
      return true;
    }

    // The bookkeeping half of a copy: a fresh last block, nothing copied yet.
    method SwapTail(id: string) returns (r: Reply<(nat, nat)>)
      requires StoreValid() && id in manager.requests && id !in reserved && CopyNeeded(KvStore(), id)
      modifies manager, manager.allocator
      ensures Wired() && !r.Raised? && (r.Ok? <==> old(manager.allocator.freeBlocks) != [])
      ensures r.Exhausted? ==>
                KvStore() == old(KvStore()) && manager.allocator.freeBlocks == old(manager.allocator.freeBlocks)
      ensures r.Ok? ==>
        var s := old(KvStore());
        && s.tables[id].blocks != []
        && r.value.0 == Last(s.tables[id].blocks)
        && r.value.1 < |s.pool| && Holders(s.owned, r.value.1) == {}
        && KvStore() == WithTable(s, id, s.tables[id].(blocks := WithLast(s.tables[id].blocks, r.value.1)))
    {
      hide Counts, FreeListOf, Coherent, Consistent, Catalog, Mirrors, WellFormed, Holders;
      ghost var v := cache.Snapshot();
      TableFacts(KvStore(), predict, id);
      manager.allocator.SparesAreUnlisted();
      r := manager.CopyOnWriteTail(id);
      assert r.Ok? ==> r.value.1 in old(manager.allocator.freeBlocks);
      RequestsOnly(v, manager.allocator.allocations, manager.allocator.blockSize);
    }

    // The free list does not cover what the request needs, and evicting cache cannot help any more.
    ghost predicate Short(id: string, target: nat)
      reads this, manager, manager.allocator, cache, pool.cells
    {
      && Wired() && id in manager.requests && NothingFreeable(cache.Snapshot())
      && |manager.allocator.freeBlocks| < Needed(KvStore(), id, target)
    }

    // Room for `target` tokens: a writable tail, then enough blocks, evicting cache for both. It
    // works exactly if the room is attainable.
    method EnsureKvCapacity(id: string, target: nat) returns (ok: bool)
      requires StoreValid() && id in manager.requests && id !in reserved && manager.requests[id].length <= target
      modifies manager, manager.allocator, cache, pool.cells
      ensures StoreValid() && manager.requests.Keys == old(manager.requests.Keys)
      ensures OthersUndisturbed(old(KvStore()), KvStore(), id) && SameRun(old(KvStore()), KvStore(), id)
      ensures |manager.requests[id].blocks| <= |old(manager.requests)[id].blocks|
           || |manager.requests[id].blocks| == BlocksFor(target, manager.allocator.blockSize)
      ensures OthersPressed(old(KvStore()), KvStore(), {id})
      ensures ok ==> WriteReady(KvStore(), id, target)
      ensures !ok ==> Short(id, target) && SameProspects(old(KvStore()), KvStore(), id)
      ensures ok <==> old(GetsNow(KvStore(), id, target))
    {
      hide Counts, FreeListOf, Coherent, Consistent, Mirrors, WellFormed, Catalog, SameRun, OthersUndisturbed,
           AllPrivate, OwnTail, Obtainable, WriteReady, Undisturbed, NothingFreeable, CopyNeeded, SameProspects,
           OthersPressed, Pressed, GetsNow;
      ghost var before := KvStore();
      ConsistentUnchanged(before, predict, id);
      SelfProspects(before, id);
      StartOfSearch(before, predict, id);
      if target > manager.requests[id].length {
        var writable := EnsureWritableTail(id);
        SameRunLength(before, KvStore(), id);
        SameProspectsNow(before, KvStore(), id, target);
        if !writable {
          ForestShown();
          NoTail(KvStore(), cache.Snapshot(), id, target, predict);
          return false;
        }
        NeedsMissing(KvStore(), id, target, predict);
      } else {
        NoNewTokens(before, id, predict);
      }
      ghost var middle := KvStore();
      var extra := BlocksFor(target, manager.allocator.blockSize) - |manager.requests[id].blocks|;
      FreeIsObtainable();
      if extra > |manager.allocator.freeBlocks| {
        Evict(extra);
        EvictedKeepsPrivate(middle, KvStore(), id);
        PressedRow(middle, KvStore(), predict, id);
        OthersTransitive(before, middle, KvStore(), id);
        SameRunTransitive(before, middle, KvStore(), id);
        OthersPressedTwice(before, middle, KvStore(), {id});
        SameProspectsTwice(before, middle, KvStore(), id);
      }
      ghost var evicted, v := KvStore(), cache.Snapshot();
      ok := Grow(id, target);
      assert !ok ==> cache.Snapshot() == v;
      OthersTransitive(before, evicted, KvStore(), id);
      SameRunTransitive(before, evicted, KvStore(), id);
      OthersPressedTwice(before, evicted, KvStore(), {id});
    }

    // Extends a table whose writable blocks are already the request's own.
    method Grow(id: string, target: nat) returns (ok: bool)
      requires StoreValid() && id in manager.requests && id !in reserved && manager.requests[id].length <= target
      requires target > manager.requests[id].length ==> AllPrivate(KvStore(), id)
      modifies manager, manager.allocator
      ensures StoreValid() && manager.requests.Keys == old(manager.requests.Keys)
      ensures OthersUndisturbed(old(KvStore()), KvStore(), id) && SameRun(old(KvStore()), KvStore(), id)
      ensures |manager.requests[id].blocks| <= |old(manager.requests)[id].blocks|
           || |manager.requests[id].blocks| == BlocksFor(target, manager.allocator.blockSize)
      ensures OthersPressed(old(KvStore()), KvStore(), {id})
      ensures ok ==> WriteReady(KvStore(), id, target)
      ensures ok <==> BlocksFor(target, manager.allocator.blockSize) - |old(manager.requests)[id].blocks|
                      <= |old(manager.allocator.freeBlocks)|
      ensures !ok ==> KvStore() == old(KvStore())
                      && manager.allocator.freeBlocks == old(manager.allocator.freeBlocks)
    {
      hide Coherent, Consistent, Mirrors, WellFormed, Catalog, SameRun, OthersUndisturbed, AllPrivate, Counts,
           FreeListOf, OthersPressed;
      ghost var before := KvStore();
      ConsistentUnchanged(before, predict, id);
      ghost var more;
      ok, more := ExtendTable(id, target);
      OwnChange(before, KvStore(), id);
      if ok {
        MulMono(BlocksFor(target, before.size), |manager.requests[id].blocks|, before.size);
        if more != [] {
          RoomNeeded(target, |before.tables[id].blocks|, before.size);
          TableFits(before, predict, id);
          ExtendKeepsAll(before, id, more, predict);
        }
      }
    }

    // The manager's part of growing: `more` free blocks after the present ones.
    method ExtendTable(id: string, target: nat) returns (ok: bool, ghost more: seq<nat>)
      requires StoreValid() && id in manager.requests && id !in reserved && manager.requests[id].length <= target
      modifies manager, manager.allocator
      ensures Wired()
      ensures ok && more != [] ==>
                && |old(manager.requests)[id].blocks + more| == BlocksFor(target, manager.allocator.blockSize)
                && Distinct(more)
                && (forall b: nat | b in more :: b < |old(KvStore()).pool| && Holders(old(KvStore()).owned, b) == {})
                && KvStore() == WithTable(old(KvStore()), id,
                                          old(manager.requests)[id].(blocks := old(manager.requests)[id].blocks + more))
      ensures ok <==> BlocksFor(target, manager.allocator.blockSize) - |old(manager.requests)[id].blocks|
                      <= |old(manager.allocator.freeBlocks)|
      ensures !ok || more == [] ==> KvStore() == old(KvStore())
      ensures !ok ==> manager.allocator.freeBlocks == old(manager.allocator.freeBlocks)
      ensures ok && more == [] ==> BlocksFor(target, manager.allocator.blockSize) <= |manager.requests[id].blocks|
    {
      hide Counts, FreeListOf, Coherent, Consistent, Mirrors, WellFormed, Catalog, Holders;
      ghost var v, size := cache.Snapshot(), manager.allocator.blockSize;
      manager.allocator.SparesAreUnlisted();
      var extra := BlocksFor(target, size) - |manager.requests[id].blocks|;
      more := [];
      if 0 < extra <= |manager.allocator.freeBlocks| {
        more := Popped(manager.allocator.freeBlocks, extra);
        PoppedSplits(manager.allocator.freeBlocks, manager.allocator.refcounts, extra);
      }
      var r := manager.EnsureCapacity(id, target);
      ok := r == Ok(true);
      RequestsOnly(v, manager.allocator.allocations, size);
    }

    // ---- lifecycle ----------------------------------------------------------------------

    // Takes an active request out: its pages are released and it becomes `g`.
    method Depart(id: string, g: Generation, queue: seq<string>)
      requires ValidBut(id) && id in active && id in gens
      requires !g.phase.Prefilling? && !g.phase.Decoding? && GenOk(g, predict, eos)
      requires Distinct(queue) && forall x :: x in queue <==> x in waiting || (x == id && g.phase.Waiting?)
      modifies this, manager, manager.allocator
      ensures Valid() && epoch == old(epoch)
      ensures active == old(active) - {id} && gens == old(gens)[id := g] && waiting == queue
      ensures prefillOrder == Dropped(old(prefillOrder), id)
      ensures cache.Published() == old(cache.Published())
      ensures OthersUndisturbed(old(KvStore()), KvStore(), id)
      ensures id in old(manager.requests) && KvStore() == Released(old(KvStore()), id)
    {
      hide Counts, FreeListOf, Coherent, Consistent, Mirrors, WellFormed, Catalog, OthersUndisturbed, GenOk, RowOk,
           Placed, Released, Distinct, Dropped, Inv, InvBut;
      ghost var before := Snapshot();
      InvButFacts(before, id, predict, eos);
      NotReserved(before, id, predict, eos);
      DepartKeepsInv(before, id, g, queue, predict, eos);
      ReleasePages(id);
      active, gens, waiting := active - {id}, gens[id := g], queue;
      DroppedDistinct(prefillOrder, id);
      prefillOrder := Dropped(prefillOrder, id);
    }

    method ReleasePages(id: string)
      requires Wired() && id in manager.requests && id !in reserved
      modifies manager, manager.allocator
      ensures Wired() && KvStore() == Released(old(KvStore()), id) && cache.Published() == old(cache.Published())
    {
      hide Counts, FreeListOf, Coherent, Consistent, Mirrors, WellFormed, Catalog;
      ghost var before, v := KvStore(), cache.Snapshot();
      var released := manager.Release(id);
      RequestsOnly(v, manager.allocator.allocations, manager.allocator.blockSize);
      assert KvStore() == Released(before, id);
    }

    // Inserts a yielded request ahead of the first queued request that arrived later.
    method Requeued(id: string) returns (queue: seq<string>)
      requires id in gens && id !in waiting && Distinct(waiting) && forall x | x in waiting :: x in gens
      ensures Distinct(queue) && forall x :: x in queue <==> x in waiting || x == id
      ensures QueuedInOrder(gens, waiting, id, queue)
    {
      var k := 0;
      while k < |waiting| && !Before(KeyOf(gens, id), KeyOf(gens, waiting[k]))
        invariant 0 <= k <= |waiting|
        invariant forall i | 0 <= i < k :: Earlier(gens, waiting[i], id)
      {
        BeforeIsEarlier(gens, waiting[k], id);
        ArrivalOrder(KeyOf(gens, id), KeyOf(gens, waiting[k]), KeyOf(gens, id));
        k := k + 1;
      }
      if k < |waiting| { BeforeIsEarlier(gens, id, waiting[k]); }
      queue := waiting[..k] + [id] + waiting[k..];
      InsertedIsDistinct(waiting, k, id);
    }

    method Preempt(id: string)
      requires Valid() && id in active
      modifies this, manager, manager.allocator
      ensures Valid() && epoch == old(epoch)
      ensures active == old(active) - {id} && id in old(gens) && gens == old(gens)[id := old(gens)[id].Preempted(epoch)]
      ensures PutBack(old(gens)[id], gens[id], epoch)
      ensures QueuedInOrder(old(gens), old(waiting), id, waiting)
      ensures OthersUndisturbed(old(KvStore()), KvStore(), id)
      ensures id in old(manager.requests) && KvStore() == Released(old(KvStore()), id)
    {
      hide Counts, FreeListOf, Coherent, Consistent, Mirrors, WellFormed, Catalog, OthersUndisturbed, RowOk,
           Inv, InvBut, Distinct, GenOk, QueuedInOrder, Placed;
      ActiveIsNotQueued(Snapshot(), id, predict, eos);
      PreemptedOk(gens[id], epoch, predict, eos);
      InvIsInvBut(Snapshot(), id, predict, eos);
      var queue := Requeued(id);
      Depart(id, gens[id].Preempted(epoch), queue);
    }

    method NewestActive() returns (r: Option<string>)
      requires Valid()
      ensures r.None? <==> active == {}
      ensures r.Some? ==> LastOf(gens, active, r.value)
    {
      hide Counts, FreeListOf, Coherent, Consistent, GenOk, RowOk, Placed;
      if active == {} {
        return None;
      }
      ghost var last := ExtremeArrival(gens, active, true);
      var newest :| && newest in active
                    && forall x | x in active && x != newest :: Before(KeyOf(gens, x), KeyOf(gens, newest));
      NewestIsLast(Snapshot(), newest);
      return Some(newest);
    }

    // Room for `target` tokens of an active request. While it can get room with everybody there
    // nobody gives way; otherwise strictly newer requests do, one by one, and at the end the
    // request itself unless it is alone. The oldest request gets its room exactly if it could get
    // it alone.
    method AcquireCapacity(id: string, target: nat) returns (ok: bool)
      requires Valid() && id in active && id in gens && CommittedLength(gens[id]) <= target
      requires WithinPrompt(gens[id], target)
      modifies this, manager, manager.allocator, cache, pool.cells
      ensures Valid() && epoch == old(epoch)
      ensures Yielded(old(Snapshot()), Snapshot(), id, epoch) && Unhindered(old(Snapshot()), Snapshot(), {id})
      ensures LatestWent(old(gens), old(active), active, id)
      ensures ok ==> id in active && WriteReady(KvStore(), id, target)
      ensures !ok && id in active ==> active == {id} && Short(id, target)
      ensures old(GetsNow(KvStore(), id, target)) ==> ok && active == old(active)
      ensures CommittedLength(old(gens)[id]) < target && old(Oldest(Snapshot(), id)) ==>
                (ok <==> old(Servable(Snapshot(), id, target)))
    {
      hide Counts, FreeListOf, Coherent, Consistent, Mirrors, WellFormed, Catalog, OthersUndisturbed, SameRun,
           WriteReady, Undisturbed, GenOk, RowOk, Yielded, Newest, Oldest, Inv, Short, GetsNow, Servable, Unhindered,
           Looking, Released, SameProspects, OthersPressed, QueuedInOrder, LatestWent, LastOf;
      ghost var before := Snapshot();
      StartLooking(before, id, target, epoch, predict, eos);
      while true
        invariant Valid() && epoch == old(epoch) && id in active && id in gens && gens[id] == before.gens[id]
        invariant Looking(before, Snapshot(), id, target, epoch)
        decreases |active|
      {
        ghost var turn := Snapshot();
        ok := MakeRoom(id, target);
        RoomTried(before, turn, KvStore(), id, target, epoch, predict, eos);
        if ok {
          YieldedInOrder(before, Snapshot(), id, epoch);
          return;
        }
        var victim := NewestActive();
        LastIsNewest(Snapshot(), victim.value);
        NewestFacts(Snapshot(), id, victim.value);
        if victim.value == id && |active| <= 1 {
          SingletonActive(active, id);
          YieldedInOrder(before, Snapshot(), id, epoch);
          return;
        }
        ghost var middle := Snapshot();
        ActiveRow(middle, id, predict, eos);
        ActiveRow(middle, victim.value, predict, eos);
        Preempt(victim.value);
        VictimLeaves(before, middle, Snapshot(), id, victim.value, target, epoch, predict, eos);
        if victim.value == id {
          YieldedInOrder(before, Snapshot(), id, epoch);
          return;
        }
      }
    }

    // The store part of one attempt; the engine invariant survives it.
    method MakeRoom(id: string, target: nat) returns (ok: bool)
      requires Valid() && id in active && id in gens && CommittedLength(gens[id]) <= target
      requires WithinPrompt(gens[id], target)
      modifies manager, manager.allocator, cache, pool.cells
      ensures Valid() && OthersUndisturbed(old(KvStore()), KvStore(), id)
      ensures OthersPressed(old(KvStore()), KvStore(), {id})
      ensures ok ==> WriteReady(KvStore(), id, target)
      ensures !ok ==> Short(id, target) && SameProspects(old(KvStore()), KvStore(), id)
      ensures ok <==> old(GetsNow(KvStore(), id, target))
    {
      hide Counts, FreeListOf, Coherent, Consistent, Mirrors, WellFormed, Catalog, OthersUndisturbed, SameRun,
           WriteReady, GenOk, Stored, OthersPressed, SameProspects, GetsNow, Short;
      ghost var before := Snapshot();
      ActiveRow(before, id, predict, eos);
      ok := EnsureKvCapacity(id, target);
      RoomKeepsRow(before.store, KvStore(), id, gens[id], target);
      StoreChangeKeepsInv(before, KvStore(), id, predict, eos);
    }

    // A terminal request frees its pages for good and advances the progress epoch.
    method Retire(id: string, phase: Phase, reason: Reason)
      requires ValidBut(id) && id in active && id in gens
      requires phase.Finished? || phase.Failed? || phase.Cancelled?
      requires GenOk(gens[id].(phase := phase, reason := reason), predict, eos)
      modifies this, manager, manager.allocator
      ensures Valid() && epoch == old(epoch) + 1 && waiting == old(waiting)
      ensures active == old(active) - {id} && gens == old(gens)[id := old(gens)[id].(phase := phase, reason := reason)]
      ensures cache.Published() == old(cache.Published())
      ensures OthersUndisturbed(old(KvStore()), KvStore(), id)
      ensures id in old(manager.requests) && KvStore() == Released(old(KvStore()), id)
    {
      hide Counts, FreeListOf, Coherent, Consistent, Mirrors, WellFormed, Catalog, OthersUndisturbed, RowOk, GenOk,
           Placed, Released;
      Depart(id, gens[id].(phase := phase, reason := reason), waiting);
      epoch := epoch + 1;
    }

    // Finds room for one request of a batch; it fails only if it is alone and still lacks room,
    // and the oldest request exactly if it lacks room alone.
    method CapacityOrFail(id: string, target: nat) returns (ok: bool)
      requires Valid() && id in active && id in gens && CommittedLength(gens[id]) <= target
      requires WithinPrompt(gens[id], target)
      modifies this, manager, manager.allocator, cache, pool.cells
      ensures Valid() && Thinned(old(Snapshot()), Snapshot(), old(epoch))
      ensures (epoch == old(epoch) || active == {}) && Ticked(old(Snapshot()), old(epoch), Snapshot(), epoch)
      ensures forall x | x in active && x != id :: Undisturbed(old(KvStore()), KvStore(), x)
      ensures Unhindered(old(Snapshot()), Snapshot(), {id})
      ensures ok <==> id in active
      ensures ok ==> id in gens && gens[id] == old(gens)[id] && WriteReady(KvStore(), id, target)
      ensures old(GetsNow(KvStore(), id, target)) ==> ok && active == old(active)
      ensures CommittedLength(old(gens)[id]) < target && old(Oldest(Snapshot(), id)) ==>
                (ok <==> old(Servable(Snapshot(), id, target)))
      ensures forall x | old(Oldest(Snapshot(), x)) && x != id :: x in active
    {
      hide Counts, FreeListOf, Coherent, Consistent, Mirrors, WellFormed, Catalog, OthersUndisturbed, WriteReady,
           Undisturbed, RowOk, Placed, Thinned, Inv, Short, GetsNow, Servable, Unhindered, Oldest, Released, Yielded;
      ghost var before := Snapshot();
      ok := AcquireCapacity(id, target);
      ghost var middle := Snapshot();
      OldestOthers(before, middle, id, epoch);
      if ok || id !in active {
        YieldedIsThinned(before, middle, id, epoch);
        ThinnedFacts(before, middle, epoch);
        YieldedFacts(before, middle, id, epoch);
        return;
      }
      FailingOk(middle, id, predict, eos);
      Retire(id, Failed, KvPoolExhausted);
      FailedIsThinned(before, middle, Snapshot(), id, old(epoch));
      ActiveIsLive(before, id, predict, eos);
      OneTicked(before, old(epoch), Snapshot(), epoch, id);
      OneReleased(before, middle, Snapshot(), id, predict, eos);
    }

    // The capacity pass of a batch, in the given order. Rows that were displaced while others
    // made room drop out; the rest keep the room they found.
    method AcquireAll(plans: seq<Plan>) returns (rows: seq<Plan>)
      requires Valid() && PlansOk(Snapshot(), plans)
      modifies this, manager, manager.allocator, cache, pool.cells
      ensures Valid() && Thinned(old(Snapshot()), Snapshot(), old(epoch))
      ensures (epoch == old(epoch) || active == {}) && Ticked(old(Snapshot()), old(epoch), Snapshot(), epoch)
      ensures rows == StillActive(plans, active)
      ensures forall plan | plan in rows :: Ready(Snapshot(), plan.id, plan.count)
      ensures Bystanders(old(Snapshot()), Snapshot(), plans) && Unhindered(old(Snapshot()), Snapshot(), RowIds(plans))
      ensures OldestServed(old(Snapshot()), Snapshot(), plans)
    {
      hide Counts, FreeListOf, Coherent, Consistent, Mirrors, WellFormed, Catalog, OthersUndisturbed, WriteReady,
           GetsNow, Undisturbed, RowOk, GenOk, Placed, Thinned, Inv, PlansOk, Ready, Passing, Bystanders, Unhindered,
           OldestPassing, OldestServed, Servable, Oldest;
      ghost var before := Snapshot();
      StartOfPass(before, plans, epoch, predict, eos);
      StartOfOldest(before, plans, predict, eos);
      var viable: seq<Plan> := [];
      for i := 0 to |plans|
        invariant Valid() && (epoch == old(epoch) || active == {}) && Ticked(before, old(epoch), Snapshot(), epoch)
        invariant Passing(before, Snapshot(), plans, i, viable, old(epoch))
        invariant OldestPassing(before, Snapshot(), plans, i)
      {
        ghost var turn, turnEpoch := Snapshot(), epoch;
        if plans[i].id !in active {
          SkippedTurn(before, turn, plans, i, viable, old(epoch));
          SkippedOldest(before, turn, plans, i, viable, old(epoch));
          continue;
        }
        PlanSurvives(before, turn, plans, i, viable, old(epoch));
        var ok := CapacityOrFail(plans[i].id, CommittedLength(gens[plans[i].id]) + plans[i].count);
        if ok { ReadyNow(Snapshot(), plans[i].id, plans[i].count, predict, eos); }
        TakenTurn(before, turn, Snapshot(), plans, i, viable, old(epoch), turnEpoch);
        OldestTurn(before, turn, Snapshot(), plans, i, viable, old(epoch), turnEpoch, predict, eos);
        PassTicked(before, turn, Snapshot(), plans, i, viable, old(epoch), turnEpoch, epoch, predict, eos);
        if ok {
          viable := viable + [plans[i]];
        }
      }
      EndOfPass(before, Snapshot(), plans, viable, old(epoch));
      EndOfOldest(before, Snapshot(), plans);
      rows := StillActive(viable, active);
    }

    // ---- forward passes -----------------------------------------------------------------

    // One token through the model: attend to what the pages hold, write the new K/V behind it.
    method WriteNext(id: string, position: nat, token: Token, ghost context: seq<Token>) returns (prediction: Token)
      requires StoreValid() && Holding(KvStore(), id, context) && |context| == position
      requires position < |manager.requests[id].blocks| * manager.allocator.blockSize
      modifies pool.cells
      ensures StoreValid() && Holding(KvStore(), id, context + [token])
      ensures OthersUndisturbed(old(KvStore()), KvStore(), id)
      ensures prediction == predict(KvOf(context + [token]))
    {
      hide Counts, FreeListOf, Coherent, Consistent, Mirrors, WellFormed, Catalog, OthersUndisturbed, AllPrivate,
           Stored, SetSlot, KvOf;
      ghost var before := KvStore();
      var size, table := manager.allocator.blockSize, manager.requests[id];
      DivBounds(position, size);
      MulLess(position / size, |table.blocks|, size);
      TableFacts(before, predict, id);
      WriteTarget(before, predict, id, position);
      var past := pool.ReadRun(table.blocks, position, KvOf(context));
      KvOfStep(context, token);
      pool.Write(table.blocks[position / size], position % size, Cell(past, token));
      WriteKeepsAll(before, KvStore(), id, position, Cell(past, token), KvOf(context), predict);
      prediction := predict(past + [Cell(past, token)]);
    }

    // Runs tokens of a ready row through the model, in order; nothing is committed yet.
    method Forward(id: string, tokens: seq<Token>) returns (predictions: seq<Token>)
      requires Valid() && tokens != [] && Ready(Snapshot(), id, |tokens|)
      modifies pool.cells
      ensures Valid() && OthersUndisturbed(old(KvStore()), KvStore(), id)
      ensures Staged(Snapshot(), id, tokens) && Context(Snapshot(), id) == old(Context(Snapshot(), id))
      ensures |predictions| == |tokens|
      ensures forall i | 0 <= i < |tokens| ::
                predictions[i] == predict(KvOf(Context(Snapshot(), id) + tokens[..i + 1]))
    {
      hide Counts, FreeListOf, Coherent, Consistent, Mirrors, WellFormed, Catalog, OthersUndisturbed, AllPrivate,
           Stored, SetSlot, KvOf, GenOk, Placed, RowOk;
      ghost var before := Snapshot();
      ghost var context := Context(before, id);
      ActiveRow(before, id, predict, eos);
      StartOfForward(before, id, |tokens|, predict, eos);
      predictions := [];
      for i := 0 to |tokens|
        invariant StoreValid() && Holding(KvStore(), id, context + tokens[..i])
        invariant OthersUndisturbed(before.store, KvStore(), id)
        invariant |predictions| == i
        invariant forall j | 0 <= j < i :: predictions[j] == predict(KvOf(context + tokens[..j + 1]))
      {
        ghost var middle := KvStore();
        assert context + tokens[..i] + [tokens[i]] == context + tokens[..i + 1];
        var prediction := WriteNext(id, manager.requests[id].length + i, tokens[i], context + tokens[..i]);
        OthersTransitive(before.store, middle, KvStore(), id);
        predictions := predictions + [prediction];
      }
      assert tokens[..|tokens|] == tokens;
      ForwardKeepsRow(before, KvStore(), id, tokens);
      StoreChangeKeepsInv(before, KvStore(), id, predict, eos);
    }

    // ---- committing -----------------------------------------------------------------------

    // Makes `count` staged tokens of a row visible. The room was acquired before, so this
    // neither fails nor takes a block.
    method Commit(id: string, count: nat, g: Generation) returns (ok: bool)
      requires Valid() && count > 0 && Ready(Snapshot(), id, count) && (g.phase.Prefilling? || g.phase.Decoding?)
      modifies this`gens, manager, manager.allocator
      ensures ok && ValidBut(id)
      ensures KvStore() == Committed(old(KvStore()), id, old(manager.requests)[id].length + count)
      ensures gens == old(gens)[id := g]
      ensures manager.allocator.freeBlocks == old(manager.allocator.freeBlocks)
      ensures OthersUndisturbed(old(KvStore()), KvStore(), id)
    {
      hide Counts, FreeListOf, Coherent, Consistent, Mirrors, WellFormed, Catalog, OthersUndisturbed, AllPrivate,
           InvBut, Inv;
      ghost var before, v := Snapshot(), cache.Snapshot();
      ReadyIsConsistent(before, id, count, predict, eos);
      CommitIsLocal(before, id, count, predict, eos);
      RoomEnough(before.store, id, before.store.tables[id].length + count, predict);
      var appended := manager.AppendTokens(id, count);
      ok := appended == Ok(true);
      RequestsOnly(v, manager.allocator.allocations, manager.allocator.blockSize);
      assert KvStore() == Committed(before.store, id, before.store.tables[id].length + count);
      RecordIsLocal(Snapshot(), id, g, predict, eos);
      gens := gens[id := g];
    }

    // Commits the inputs behind `emitted`, appends the tokens, and finishes the request if the
    // last one ends it.
    method Emit(id: string, emitted: seq<Token>, planned: Option<Reason>) returns (ok: bool)
      requires Valid() && OutcomeReady(Snapshot(), Emits(id, emitted, planned), predict, eos)
      modifies this, manager, manager.allocator
      ensures ok && Valid() && Moved(old(Snapshot()), Snapshot(), {id})
      ensures OutcomeDone(old(Snapshot()), Snapshot(), Emits(id, emitted, planned), eos)
      ensures id in active <==> gens[id].phase.Decoding?
      ensures ReasonOk(gens[id], eos)
      ensures Unhindered(old(Snapshot()), Snapshot(), {}) && Ticked(old(Snapshot()), old(epoch), Snapshot(), epoch)
    {
      hide Counts, FreeListOf, Coherent, Consistent, Mirrors, WellFormed, Catalog, OthersUndisturbed, InvBut, Inv,
           GenOk, RowOk, Ready, Continues, Unhindered, Released, ReasonOk;
      ghost var before := Snapshot();
      EmitReadyFacts(before, id, emitted, predict, eos);
      SettledOk(before.gens[id], emitted, predict, eos);
      var g := AfterEmitting(gens[id], emitted);
      ok := Commit(id, |emitted|, g);
      if !ok {
        return;
      }
      ghost var middle := Snapshot();
      HoldingsUnhinder(before, middle, {});
      var reason := if planned.Some? then planned else g.FinishReason(emitted[|emitted| - 1], eos);
      if reason.Some? {
        NotReserved(middle, id, predict, eos);
        Retire(id, Finished, reason.value);
        OthersTransitive(before.store, middle.store, KvStore(), id);
        GoneUnhindered(before, middle, Snapshot(), id);
      } else {
        ProgressKeepsInv(middle, id, g, predict, eos);
        assert middle.gens[id := g] == middle.gens;
      }
      RightReason(Snapshot(), id, predict, eos);
      OneMoved(before, Snapshot(), id);
      OneTicked(before, old(epoch), Snapshot(), epoch, id);
    }

    // ---- prefill --------------------------------------------------------------------------

    // Offers a fully prefilled prompt to the cache; only a greedy first token goes with it.
    method PublishPrefix(id: string, next: Option<Token>) returns (ghost kept: View)
      requires Valid() && id in active && id in gens && FullyPrefilled(gens[id])
      requires next.Some? ==> !gens[id].resuming && next.value == predict(KvOf(gens[id].prompt))
      modifies cache, manager.allocator
      ensures Valid() && OthersUndisturbed(old(KvStore()), KvStore(), id)
      ensures cache.maxBlocks > 0 ==>
        && id in manager.requests
        && Offering(old(cache.Snapshot()), kept, cache.Published(), cache.exact, gens[id].prompt, manager.requests[id],
                    manager.allocator.blockSize, next, cache.maxBlocks)
      ensures Roomy() ==> forall key | key in old(cache.exact) :: key in cache.exact
      ensures Roomy() && next.Some? ==> gens[id].prompt in cache.exact
    {
      hide Counts, FreeListOf, Coherent, Consistent, Mirrors, WellFormed, Catalog, OthersUndisturbed, Stored, KvOf,
           Kept, GenOk, Placed, RowOk, Shrinks, Offering;
      ghost var before, v := Snapshot(), cache.Snapshot();
      ActiveRow(before, id, predict, eos);
      PrefillingFacts(gens[id], predict, eos);
      PromptIsStored(before.store, id, gens[id], predict);
      var published;
      published, kept := cache.Publish(gens[id].prompt, id, next);
      if cache.maxBlocks > 0 {
        PublishedKeeps(before.store, KvStore(), v, kept, cache.Snapshot(), id, gens[id].prompt, next, cache.maxBlocks,
                       predict);
        OfferingMade(v, kept, cache.Snapshot(), gens[id].prompt, manager.requests[id], manager.allocator.blockSize,
                     next, cache.maxBlocks);
        if Roomy() {
          NothingOverLimit(kept, manager.allocator.blockSize, manager.allocator.numBlocks);
          PromptFits(before.store, id, gens[id], predict);
          PromptFiled(v, kept, cache.Published(), cache.exact, gens[id].prompt, manager.requests[id],
                      manager.allocator.blockSize, next, cache.maxBlocks);
        }
      } else {
        ConsistentUnchanged(before.store, predict, id);
      }
      CacheChangeKeepsRow(before.store, KvStore(), id, gens[id]);
      StoreChangeKeepsInv(before, KvStore(), id, predict, eos);
    }

    // Moves a fully prefilled request into decode, offering its prompt to the cache. A resumed
    // request continues with its last token as pending input and discards the prefill's own
    // prediction.
    method CompletePrefill(id: string, predicted: Option<Token>) returns (ghost kept: View)
      requires Valid() && id in active && id in gens && FullyPrefilled(gens[id])
      requires predicted.Some? && gens[id].greedy && !gens[id].resuming ==>
                 predicted.value == predict(KvOf(gens[id].prompt))
      modifies this, manager, manager.allocator, cache
      ensures Valid() && gens == old(gens)[id := Completed(old(gens)[id], predicted, eos)]
      ensures Ticked(old(Snapshot()), old(epoch), Snapshot(), epoch)
      ensures old(gens)[id].resuming || predicted.Some? ==> Moved(old(Snapshot()), Snapshot(), {id})
      ensures cache.maxBlocks > 0 && (old(gens)[id].resuming || predicted.Some?) ==>
        && id in old(manager.requests)
        && Offering(old(cache.Snapshot()), kept, cache.Published(), cache.exact, old(gens)[id].prompt,
                    old(manager.requests)[id], manager.allocator.blockSize,
                    if old(gens)[id].greedy && !old(gens)[id].resuming then predicted else None, cache.maxBlocks)
      ensures Roomy() ==> Archived(old(Snapshot()), Snapshot())
    {
      hide Counts, FreeListOf, Coherent, Consistent, Mirrors, WellFormed, Catalog, OthersUndisturbed, GenOk, RowOk,
           InvBut, KvOf, Continues, Inv, Settled, Offering, Ticked, Moved, Released;
      ghost var before := Snapshot();
      kept := cache.Snapshot();
      ActiveRow(before, id, predict, eos);
      PrefillingFacts(gens[id], predict, eos);
      if !gens[id].resuming && predicted.None? {
        InvalidEntryOk(gens[id], predict, eos);
        InvIsInvBut(before, id, predict, eos);
        Retire(id, Failed, InvalidPrefixEntry);
        OneTicked(before, old(epoch), Snapshot(), epoch, id);
        OneArchived(before, Snapshot(), id);
        return;
      }
      kept := PublishPrefix(id, if gens[id].greedy && !gens[id].resuming then predicted else None);
      ghost var middle := Snapshot();
      ForwardMoves(before, middle, id, predict, eos);
      StartDecoding(id, predicted);
      SameTick(before, middle, old(epoch));
      MovedTicked(before, old(epoch), middle, old(epoch), Snapshot(), epoch, {id}, {id});
      MovedOn(before, middle, Snapshot(), {id}, {id});
      assert {id} + {id} == {id};
      if Roomy() { OneArchived(before, Snapshot(), id); }
    }

    // The record's part of that.
    method StartDecoding(id: string, predicted: Option<Token>)
      requires Valid() && id in active && id in gens && FullyPrefilled(gens[id])
      requires gens[id].resuming || predicted.Some?
      requires predicted.Some? && gens[id].greedy && !gens[id].resuming ==>
                 predicted.value == predict(KvOf(gens[id].prompt))
      modifies this, manager, manager.allocator
      ensures Valid() && gens == old(gens)[id := Completed(old(gens)[id], predicted, eos)]
      ensures Ticked(old(Snapshot()), old(epoch), Snapshot(), epoch) && Moved(old(Snapshot()), Snapshot(), {id})
      ensures cache.Published() == old(cache.Published())
    {
      hide Counts, FreeListOf, Coherent, Consistent, Mirrors, WellFormed, Catalog, OthersUndisturbed, GenOk, RowOk,
           InvBut, KvOf, Continues, Inv, Settled, Ticked, Moved, Released;
      ghost var before := Snapshot();
      ActiveRow(before, id, predict, eos);
      PrefillingFacts(gens[id], predict, eos);
      InvIsInvBut(before, id, predict, eos);
      ConsistentUnchanged(before.store, predict, id);
      var g := gens[id];
      if g.resuming {
        ResumedOk(before.store, id, g, predict, eos);
        gens := gens[id := Completed(g, None, eos)];
        ProgressKeepsInv(before, id, gens[id], predict, eos);
      } else {
        FirstTokenOk(before.store, id, g, predicted.value, predict, eos);
        Settle(id, AfterEmitting(g, [predicted.value]), predicted.value);
      }
      OneMoved(before, Snapshot(), id);
      OneTicked(before, old(epoch), Snapshot(), epoch, id);
    }

    // A request whose K/V is in order takes on its new record, and finishes if its last token
    // ends it.
    method Settle(id: string, g: Generation, last: Token)
      requires Valid() && id in active && id in gens && g.phase.Decoding? && RowOk(KvStore(), id, g)
      requires GenOk(Settled(g, last, eos), predict, eos)
      modifies this, manager, manager.allocator
      ensures Valid() && gens == old(gens)[id := Settled(g, last, eos)]
      ensures active == if g.FinishReason(last, eos).None? then old(active) else old(active) - {id}
      ensures cache.Published() == old(cache.Published())
      ensures || (epoch == old(epoch) && active == old(active))
              || (epoch == old(epoch) + 1 && !gens[id].Live())
      ensures OthersUndisturbed(old(KvStore()), KvStore(), id)
    {
      hide Counts, FreeListOf, Coherent, Consistent, Mirrors, WellFormed, Catalog, OthersUndisturbed, GenOk, RowOk,
           InvBut, Inv;
      ghost var before := Snapshot();
      ActiveRow(before, id, predict, eos);
      InvIsInvBut(before, id, predict, eos);
      ConsistentUnchanged(before.store, predict, id);
      var reason := g.FinishReason(last, eos);
      RecordIsLocal(before, id, g, predict, eos);
      gens := gens[id := g];
      if reason.Some? {
        Retire(id, Finished, reason.value);
      } else {
        ProgressKeepsInv(before, id, g, predict, eos);
      }
    }

    // Commits a prefilled chunk. A whole-prompt prefill of a resumed request goes on to replay
    // its history; a row that is then complete starts decoding.
    method Fill(id: string, tokens: seq<Token>, token: Token, replay: bool) returns (ok: bool)
      requires Valid() && FillReady(Snapshot(), id, tokens, token, replay, predict)
      modifies this, manager, manager.allocator, cache, pool.cells
      ensures ok && Valid() && Moved(old(Snapshot()), Snapshot(), {id})
      ensures OutcomeDone(old(Snapshot()), Snapshot(), Fills(id, tokens, token, replay), eos)
      ensures Ticked(old(Snapshot()), old(epoch), Snapshot(), epoch)
      ensures Roomy() ==> Archived(old(Snapshot()), Snapshot())
    {
      hide Counts, FreeListOf, Coherent, Consistent, Mirrors, WellFormed, Catalog, KvOf, Inv, Completed, Ready, Moved,
           Staged, FillReady, OutcomeDone, Generation.PrefillIds, FullyPrefilled, Ticked, Archived;
      ghost var before := Snapshot();
      ok := CommitChunk(id, tokens, token, replay);
      if !ok {
        return;
      }
      ghost var filled := Snapshot();
      SameTick(before, filled, epoch);
      assert {id} + {id} == {id};
      FilledFacts(before, filled, id, tokens, token, replay, predict);
      ArchivedSelf(filled);
      if FullyPrefilled(gens[id]) {
        ghost var kept := CompletePrefill(id, Some(token));
        MovedOn(before, filled, Snapshot(), {id}, {id});
        MovedTicked(before, old(epoch), filled, old(epoch), Snapshot(), epoch, {id}, {id});
      }
      FillIsDone(before, Snapshot(), id, tokens, token, replay, eos);
      if Roomy() { FilledArchived(before, filled, Snapshot(), id, filled.gens[id].prefilled); }
    }

    // The record's and the tables' part of that: the chunk, and the replay if there is one.
    method CommitChunk(id: string, tokens: seq<Token>, token: Token, replay: bool) returns (ok: bool)
      requires Valid() && FillReady(Snapshot(), id, tokens, token, replay, predict)
      modifies this`gens, manager, manager.allocator, pool.cells
      ensures ok && Valid() && Moved(old(Snapshot()), Snapshot(), {id})
      ensures id in active && id in old(gens) && gens == old(gens)[id := AfterFilling(old(gens)[id], tokens, replay)]
    {
      hide Counts, FreeListOf, Coherent, Consistent, Mirrors, WellFormed, Catalog, KvOf, Inv, Ready, Moved, Staged,
           FillReady, Generation.PrefillIds;
      ghost var before := Snapshot();
      FillFacts(before, id, tokens, token, replay, predict, eos);
      ok := CommitHistory(id, |tokens|);
      ghost var middle := Snapshot();
      if ok && replay {
        ok := ReplayHistory(id);
        MovedOn(before, middle, Snapshot(), {id}, {id});
        assert {id} + {id} == {id};
      }
    }

    // Commits `count` staged history tokens of a prefilling row.
    method CommitHistory(id: string, count: nat) returns (ok: bool)
      requires Valid() && count > 0 && id in gens && gens[id].phase.Prefilling?
      requires gens[id].prefilled + count <= |gens[id].PrefillIds()|
      requires Staged(Snapshot(), id, gens[id].PrefillIds()[gens[id].prefilled..gens[id].prefilled + count])
      modifies this`gens, manager, manager.allocator
      ensures ok && Valid() && Moved(old(Snapshot()), Snapshot(), {id})
      ensures gens == old(gens)[id := old(gens)[id].(prefilled := old(gens)[id].prefilled + count)]
      ensures forall n: nat :: count <= n && old(Ready(Snapshot(), id, n)) ==> Ready(Snapshot(), id, n - count)
    {
      hide Counts, FreeListOf, Coherent, Consistent, Mirrors, WellFormed, Catalog, OthersUndisturbed, GenOk, RowOk,
           InvBut, KvOf, Continues, Inv, Stored, WriteReady;
      ghost var before := Snapshot();
      var g := gens[id].(prefilled := gens[id].prefilled + count);
      HistoryRow(before, id, count, predict, eos);
      ok := Commit(id, count, g);
      ghost var after := Snapshot();
      assert after.gens[id := g] == after.gens;
      ProgressKeepsInv(after, id, g, predict, eos);
      OneMoved(before, after, id);
      PrefillRowFacts(after, id, predict, eos);
      forall n: nat | count <= n && Ready(before, id, n) ensures Ready(after, id, n - count) {
        ReadyAfterCommit(before, after, id, n, count);
      }
    }

    // Rebuilds a resumed request's generated history through the ordinary decode path.
    method ReplayHistory(id: string) returns (ok: bool)
      requires Valid() && id in active && id in gens && gens[id].phase.Prefilling?
      requires gens[id].prefilled == |gens[id].prompt|
      requires Ready(Snapshot(), id, |gens[id].PrefillIds()| - |gens[id].prompt|)
      modifies this`gens, manager, manager.allocator, pool.cells
      ensures ok && Valid() && Moved(old(Snapshot()), Snapshot(), {id})
      ensures gens == old(gens)[id := old(gens)[id].(prefilled := |old(gens)[id].PrefillIds()|)]
    {
      hide Counts, FreeListOf, Coherent, Consistent, Mirrors, WellFormed, Catalog, Inv, Ready, Moved;
      ghost var before := Snapshot();
      var g := gens[id];
      var history := if g.resuming && g.outputs != [] then g.outputs[..|g.outputs| - 1] else [];
      ok := true;
      MovedSelf(before, id, predict, eos);
      assert g.(prefilled := |g.prompt|) == g && gens[id := g] == gens;
      for i := 0 to |history|
        invariant ok && Valid() && id in active && Moved(before, Snapshot(), {id})
        invariant gens == before.gens[id := g.(prefilled := |g.prompt| + i)]
        invariant Ready(Snapshot(), id, |history| - i)
      {
        ghost var turn := Snapshot();
        ok := ReplayDecodeInput(id, history[i], g, i);
        MovedOn(before, turn, Snapshot(), {id}, {id});
        assert {id} + {id} == {id};
      }
    }

    // Rebuilds one historical input; its logits are discarded, the historical token stands.
    method ReplayDecodeInput(id: string, input: Token, ghost g: Generation, ghost i: nat) returns (ok: bool)
      requires Valid() && id in active && id in gens && gens[id] == g.(prefilled := |g.prompt| + i)
      requires g.phase.Prefilling? && |g.prompt| + i < |g.PrefillIds()| && input == g.PrefillIds()[|g.prompt| + i]
      requires Ready(Snapshot(), id, |g.PrefillIds()| - |g.prompt| - i)
      modifies this`gens, manager, manager.allocator, pool.cells
      ensures ok && Valid() && Moved(old(Snapshot()), Snapshot(), {id}) && id in active
      ensures gens == old(gens)[id := g.(prefilled := |g.prompt| + i + 1)]
      ensures Ready(Snapshot(), id, |g.PrefillIds()| - |g.prompt| - i - 1)
    {
      hide Counts, FreeListOf, Coherent, Consistent, Mirrors, WellFormed, Catalog, OthersUndisturbed, KvOf, Inv, Ready,
           Moved, Staged;
      ghost var before := Snapshot();
      ReplayStep(before, id, g, i, predict, eos);
      var discarded := Forward(id, [input]);
      ForwardMoves(before, Snapshot(), id, predict, eos);
      ghost var forwarded := Snapshot();
      ReadyIgnoresPool(before, forwarded, id, |g.PrefillIds()| - |g.prompt| - i);
      ok := CommitHistory(id, 1);
      MovedOn(before, forwarded, Snapshot(), {id}, {id});
      assert {id} + {id} == {id};
    }

    // ---- batches --------------------------------------------------------------------------

    method CommitRow(w: Outcome) returns (ok: bool)
      requires Valid() && OutcomeReady(Snapshot(), w, predict, eos)
      modifies this, manager, manager.allocator, cache, pool.cells
      ensures ok && Valid() && Moved(old(Snapshot()), Snapshot(), {w.id})
      ensures OutcomeDone(old(Snapshot()), Snapshot(), w, eos)
      ensures Ticked(old(Snapshot()), old(epoch), Snapshot(), epoch)
      ensures w.Emits? ==> Unhindered(old(Snapshot()), Snapshot(), {})
      ensures Roomy() ==> Archived(old(Snapshot()), Snapshot())
    {
      hide Inv, Moved, EmitReady, FillReady, Emission, OutcomeDone, Coherent, Counts, FreeListOf, Consistent,
           Unhindered, Ticked, Archived;
      ghost var before := Snapshot();
      match w
      case Emits(id, emitted, planned) =>
        DecodesAlready(before, id, emitted, predict, eos);
        ok := Emit(id, emitted, planned);
        NothingFiled(before, Snapshot(), id);
      case Fills(id, tokens, token, replay) => ok := Fill(id, tokens, token, replay);
    }

    // Commits the rows of a batch in order. Every row found its room before the forward pass,
    // so none of these commits can fail.
    method CommitRows(work: seq<Outcome>) returns (ok: bool)
      requires Valid() && DistinctOutcomes(work)
      requires forall w | w in work :: OutcomeReady(Snapshot(), w, predict, eos)
      modifies this, manager, manager.allocator, cache, pool.cells
      ensures ok && Valid() && Moved(old(Snapshot()), Snapshot(), Ids(work))
      ensures forall w | w in work :: OutcomeDone(old(Snapshot()), Snapshot(), w, eos)
      ensures Ticked(old(Snapshot()), old(epoch), Snapshot(), epoch)
      ensures (forall w | w in work :: w.Emits?) ==> Unhindered(old(Snapshot()), Snapshot(), {})
      ensures Roomy() ==> Archived(old(Snapshot()), Snapshot())
    {
      hide Counts, FreeListOf, Coherent, Consistent, Mirrors, WellFormed, Catalog, Inv, Moved, OutcomeReady,
           OutcomeDone, Result, DistinctOutcomes, Unhindered, Ticked, Archived;
      ghost var before := Snapshot();
      StartCommitting(before, work, predict, eos);
      UnhinderedSelf(before, {});
      NotTicked(before, epoch);
      ArchivedSelf(before);
      ok := true;
      for i := 0 to |work|
        invariant ok && Valid() && Committing(before, Snapshot(), work, i, predict, eos)
        invariant Ticked(before, old(epoch), Snapshot(), epoch)
        invariant (forall w | w in work :: w.Emits?) ==> Unhindered(before, Snapshot(), {})
        invariant Roomy() ==> Archived(before, Snapshot())
      {
        ghost var turn, now := Snapshot(), epoch;
        ok := CommitRow(work[i]);
        if !ok {
          return;
        }
        RowCommitted(before, turn, Snapshot(), work, i, predict, eos);
        StillUnhindered(before, turn, Snapshot(), work, i);
        StillArchived(before, turn, Snapshot(), work, i);
        MovedTicked(before, old(epoch), turn, now, Snapshot(), epoch, Ids(work[..i]), {work[i].id});
      }
      assert work[..|work|] == work;
    }

    // One decoding row through the model: its pending token, and the proposals to be verified
    // if it has any; then what it emits is decided.
    method RowOutcome(id: string, proposals: seq<Token>) returns (w: Outcome)
      requires Valid() && RowReady(Snapshot(), Plan(id, 1 + |proposals|)) && gens[id].phase.Decoding?
      modifies pool.cells
      ensures Valid() && Moved(old(Snapshot()), Snapshot(), {id})
      ensures w.Emits? && w.id == id && 0 < |w.emitted| <= 1 + |proposals| && OutcomeReady(Snapshot(), w, predict, eos)
      ensures gens[id].greedy && |gens[id].outputs| <= gens[id].maxNew ==>
                w.emitted == TurnTokens(gens[id], proposals, predict, eos)
    {
      hide Counts, FreeListOf, Coherent, Consistent, Mirrors, WellFormed, Catalog, Inv, Staged, OthersUndisturbed,
           Moved, OutcomeReady, Verified, Agreeing, KvOf, TurnTokens;
      ghost var before := Snapshot();
      PendingOf(before, id, predict, eos);
      var g := gens[id];
      var predictions := Forward(id, [g.pending.value] + proposals);
      ForwardMoves(before, Snapshot(), id, predict, eos);
      if proposals == [] {
        assert [g.pending.value] + proposals == ([g.pending.value] + proposals)[..1] == [g.pending.value];
        // The sampler is not modelled: a row that is not greedy may get any token.
        var sampled: Token :| 0 <= sampled;
        var token: Token := if g.greedy then predictions[0] else sampled;
        NextTokenReady(Snapshot(), id, token, predict, eos);
        StagedFacts(Snapshot(), id, [g.pending.value]);
        if g.greedy { PlainRow(Snapshot(), id, token, predict, eos); }
        return Emits(id, [token], None);
      }
      w := Decide(Snapshot(), id, g, proposals, predictions, predict, eos);
    }

    // One prefilling row through the model: its next chunk, or with `replay` its whole prompt.
    method FillOutcome(id: string, count: nat, replay: bool) returns (w: Outcome)
      requires Valid() && RowReady(Snapshot(), Plan(id, count)) && gens[id].phase.Prefilling?
      requires replay ==> gens[id].prefilled == 0 && count == |gens[id].PrefillIds()|
      modifies pool.cells
      ensures Valid() && Moved(old(Snapshot()), Snapshot(), {id})
      ensures w.Fills? && w.id == id && OutcomeReady(Snapshot(), w, predict, eos)
      ensures AfterFilling(gens[id], w.tokens, w.replay) == gens[id].(prefilled := gens[id].prefilled + count)
    {
      hide Counts, FreeListOf, Coherent, Consistent, Mirrors, WellFormed, Catalog, Inv, Staged, OthersUndisturbed,
           Moved, KvOf, Ready, AfterFilling;
      ghost var before := Snapshot();
      RowReadyFacts(before, Plan(id, count));
      var g := gens[id];
      var tokens := if replay then g.prompt else g.PrefillIds()[g.prefilled..g.prefilled + count];
      FillStart(before, id, tokens, count, replay, predict, eos);
      var predictions := Forward(id, tokens);
      ForwardMoves(before, Snapshot(), id, predict, eos);
      ReadyIgnoresPool(before, Snapshot(), id, count);
      var sampled: Token :| 0 <= sampled;
      var token: Token := if g.greedy then predictions[|tokens| - 1] else sampled;
      assert tokens[..|tokens|] == tokens;
      FillEnd(Snapshot(), id, tokens, count, token, replay, predict, eos);
      FillCount(g, tokens, count, replay);
      return Fills(id, tokens, token, replay);
    }

    // Runs one batch of rows that already have room through the model and commits it: decoding
    // rows with their drafted proposals, if any, and prefilling rows with their chunks.
    method RunRows(rows: seq<Plan>, drafts: map<string, seq<Token>>, replay: bool) returns (ok: bool)
      requires Valid() && RowsOk(Snapshot(), rows, drafts, replay)
      modifies this, manager, manager.allocator, cache, pool.cells
      ensures ok && Valid() && Moved(old(Snapshot()), Snapshot(), RowIds(rows))
      ensures AllCarriedOut(old(Snapshot()), Snapshot(), rows, eos)
      ensures AllTurned(old(gens), gens, rows, drafts, predict, eos)
      ensures Ticked(old(Snapshot()), old(epoch), Snapshot(), epoch)
      ensures (forall plan | plan in rows :: plan.id in old(gens) && old(gens)[plan.id].phase.Decoding?) ==>
                Unhindered(old(Snapshot()), Snapshot(), {})
      ensures Roomy() ==> Archived(old(Snapshot()), Snapshot())
    {
      hide Counts, FreeListOf, Coherent, Consistent, Mirrors, WellFormed, Catalog, Inv, Moved, OutcomeReady, RowReady,
           DistinctRows, DistinctOutcomes, OutcomeDone, Staging, Continues, AllCarriedOut, Unhindered, Ticked, Archived,
           AllTurned, TurnTokens, Planned;
      ghost var before := Snapshot();
      StartStaging(before, rows, predict, eos);
      NothingPlannedYet(gens, rows, drafts, predict, eos);
      var work: seq<Outcome> := [];
      for i := 0 to |rows|
        modifies pool.cells
        invariant Valid() && Staging(before, Snapshot(), rows, i, work, predict, eos)
        invariant |work| == i && Planned(gens, rows, work, drafts, predict, eos)
      {
        ghost var turn := Snapshot();
        RowToStage(before, turn, rows, i, work, predict, eos);
        RowReadyFacts(turn, rows[i]);
        assert rows[i] in rows;
        var w;
        if gens[rows[i].id].phase.Decoding? {
          w := RowOutcome(rows[i].id, DraftOf(drafts, rows[i].id));
        } else {
          w := FillOutcome(rows[i].id, rows[i].count, replay);
        }
        RowStaged(before, turn, Snapshot(), rows, i, work, w, predict, eos);
        OneMorePlanned(gens, rows, work, w, drafts, predict, eos);
        work := work + [w];
      }
      ghost var staged := Snapshot();
      SameTick(before, staged, epoch);
      EndStaging(before, staged, rows, work, predict, eos);
      HoldingsUnhinder(before, staged, {});
      ok := CommitRows(work);
      DecodeUnhindered(before, staged, Snapshot(), rows, work, drafts, predict, eos);
      MovedOn(before, staged, Snapshot(), RowIds(rows), RowIds(rows));
      MovedTicked(before, old(epoch), staged, old(epoch), Snapshot(), epoch, RowIds(rows), RowIds(rows));
      assert RowIds(rows) + RowIds(rows) == RowIds(rows);
      EveryRowCarriedOut(before, staged, Snapshot(), rows, work, drafts, predict, eos);
      EveryRowTurned(before, staged, Snapshot(), rows, work, drafts, predict, eos);
      if Roomy() { StagedArchived(before, staged, Snapshot()); }
    }

    // Requests from the first to arrive to the last.
    method InArrivalOrder(ids: set<string>) returns (order: seq<string>)
      requires ids <= gens.Keys
      ensures Distinct(order) && forall x :: x in order <==> x in ids
      ensures forall i, j | 0 <= i < j < |order| :: Before(KeyOf(gens, order[i]), KeyOf(gens, order[j]))
      ensures forall i, j | 0 <= i < j < |order| :: Earlier(gens, order[i], order[j])
    {
      var rest := ids;
      order := [];
      while rest != {}
        invariant rest <= ids && (forall x :: x in order <==> x in ids && x !in rest)
        invariant forall i, j | 0 <= i < j < |order| :: Before(KeyOf(gens, order[i]), KeyOf(gens, order[j]))
        invariant forall i, y | 0 <= i < |order| && y in rest :: Before(KeyOf(gens, order[i]), KeyOf(gens, y))
        decreases rest
      {
        ghost var first := ExtremeArrival(gens, rest, false);
        var x :| x in rest && forall y | y in rest && y != x :: Before(KeyOf(gens, x), KeyOf(gens, y));
        order, rest := order + [x], rest - {x};
      }
      SortedIsDistinct(gens, order);
      forall i, j | 0 <= i < j < |order| ensures Earlier(gens, order[i], order[j]) {
        BeforeIsEarlier(gens, order[i], order[j]);
      }
    }

    // The capacity pass of a decode batch, oldest request first.
    method DecodeViable(ids: set<string>, drafts: map<string, seq<Token>>)
      returns (rows: seq<Plan>, ghost order: seq<string>, ghost plans: seq<Plan>)
      requires Valid() && ids <= active && forall id | id in ids :: id in gens && gens[id].phase.Decoding?
      modifies this, manager, manager.allocator, cache, pool.cells
      ensures Valid() && Thinned(old(Snapshot()), Snapshot(), old(epoch))
      ensures DecodeOrder(ids, order, plans, drafts) && rows == StillActive(plans, active)
      ensures Unhindered(old(Snapshot()), Snapshot(), RowIds(plans)) && OldestServed(old(Snapshot()), Snapshot(), plans)
      ensures Bystanders(old(Snapshot()), Snapshot(), plans) && (epoch == old(epoch) || active == {})
      ensures Ticked(old(Snapshot()), old(epoch), Snapshot(), epoch)
      ensures RowsOk(Snapshot(), rows, drafts, false)
      ensures forall plan | plan in rows :: plan.id in gens && gens[plan.id].phase.Decoding?
    {
      hide Counts, FreeListOf, Coherent, Consistent, Mirrors, WellFormed, Catalog, Inv, Ready, RowReady, PlansOk,
           Thinned, Bystanders, Unhindered, OldestServed, Ticked;
      ghost var before := Snapshot();
      var sorted := InArrivalOrder(ids);
      var todo := seq(|sorted|, i requires 0 <= i < |sorted| => Plan(sorted[i], 1 + |DraftOf(drafts, sorted[i])|));
      order, plans := sorted, todo;
      DecodePlansOk(before, order, plans);
      rows := AcquireAll(todo);
      DecodeRowsReady(before, Snapshot(), plans, rows, drafts, old(epoch));
    }

    // A decode batch over requests that are decoding: room first, then one forward pass and
    // the commit. With drafts this is a speculative round.
    method DecodePass(ids: set<string>, drafts: map<string, seq<Token>>) returns (ok: bool)
      requires Valid() && ids <= active && forall id | id in ids :: id in gens && gens[id].phase.Decoding?
      modifies this, manager, manager.allocator, cache, pool.cells
      ensures ok && Valid()
      ensures BatchProgress(old(Snapshot()), Snapshot(), DecodeTasks(ids, drafts), eos, old(epoch))
      ensures Ticked(old(Snapshot()), old(epoch), Snapshot(), epoch)
      ensures OldestDecided(old(Snapshot()), Snapshot(), DecodeTasks(ids, drafts), eos)
      ensures Turned(old(gens), gens, ids, drafts, predict, eos)
      ensures forall x | x !in ids && old(Oldest(Snapshot(), x)) :: Waited(old(Snapshot()), Snapshot(), x)
    {
      hide Counts, FreeListOf, Coherent, Consistent, Mirrors, WellFormed, Catalog, Inv, Moved, RowsOk, Thinned,
           BatchProgress, DecodeOrder, AllCarriedOut, Unhindered, OldestServed, OldestDecided, Oldest, Waited,
           Bystanders, Ticked, Turned, AllTurned;
      ghost var before := Snapshot();
      var rows;
      ghost var order, plans;
      rows, order, plans := DecodeViable(ids, drafts);
      ghost var middle, now := Snapshot(), epoch;
      ok := RunRows(rows, drafts, false);
      DecodeTasksAre(ids, order, plans, drafts);
      DecodePlansAre(ids, order, plans, drafts);
      BatchIsProgress(before, middle, Snapshot(), plans, rows, eos, old(epoch), predict);
      BatchTicked(before, old(epoch), middle, now, Snapshot(), epoch, RowIds(rows), predict, eos);
      TurnedByRun(before, middle, Snapshot(), rows, ids, drafts, old(epoch), predict, eos);
      OldestOfBatch(before, middle, Snapshot(), plans, rows, eos, old(epoch));
      OldestWaited(before, middle, Snapshot(), ids, plans, rows, old(epoch), predict, eos);
    }

    // ---- admission ------------------------------------------------------------------------

    // No block is free and evicting cache cannot free one.
    ghost predicate Starved()
      reads this, manager, manager.allocator, cache
    {
      Wired() && manager.allocator.freeBlocks == [] && NothingFreeable(cache.Snapshot())
    }

    // The longest usable prefix, if there is one; no request notices the lookup.
    method FindPrefix(ids: seq<Token>, exactAllowed: bool) returns (m: PrefixMatch)
      requires StoreValid()
      modifies cache
      ensures StoreValid() && forall x | x in manager.requests :: Undisturbed(old(KvStore()), KvStore(), x)
      ensures m.tokenCount > 0 ==> Usable(KvStore(), ids, m, predict)
      ensures ReusesLongest(old(KvStore()), ids, exactAllowed, m.tokenCount)
    {
      hide Counts, FreeListOf, Coherent, Consistent, Mirrors, WellFormed, Catalog, Undisturbed, Stored, KvOf, Covers,
           Usable, ReusesLongest;
      ghost var before := KvStore();
      m := cache.Lookup(ids, exactAllowed);
      StampsIrrelevant(before, KvStore(), predict);
      if m.tokenCount > 0 { HitIsUsable(KvStore(), ids, m, predict); }
      LookupReusesLongest(before, ids, exactAllowed, m);
    }

    // Shares the blocks of the longest usable prefix, or reserves one fresh block, evicting
    // cached memory once if there is none.
    method TakeTable(id: string, ids: seq<Token>, exactAllowed: bool)
      returns (t: Option<Table>, next: Option<Token>, ghost quiet: Store)
      requires StoreValid() && id != "" && id !in manager.requests && ids != []
      modifies manager, manager.allocator, cache
      ensures Wired() && Consistent(quiet, predict)
      ensures quiet.tables == old(KvStore()).tables
      ensures forall x | x in quiet.tables :: Undisturbed(old(KvStore()), quiet, x)
      ensures t.None? ==> KvStore() == quiet && Starved()
      ensures t.Some? ==> ReusesLongest(old(KvStore()), ids, exactAllowed, t.value.length)
      ensures t.Some? ==> StartsFrom(quiet, ids, t.value, next, predict) && KvStore() == WithTable(quiet, id, t.value)
    {
      hide Counts, FreeListOf, Coherent, Consistent, Mirrors, WellFormed, Catalog, Undisturbed, Stored, KvOf, Covers,
           StartsFrom, Usable, Unreclaimable, ReusesLongest, NothingFreeable;
      ghost var before := KvStore();
      var m := FindPrefix(ids, exactAllowed);
      quiet := KvStore();
      if m.tokenCount > 0 {
        HitStart(quiet, ids, m, predict);
        Attach(id, ids, m);
        return Some(Table(m.blocks, m.tokenCount)), m.nextToken, quiet;
      }
      next := None;
      t := ReserveFirst(id, ids);
      if t.None? {
        Evict(1);
        QuietTwice(before, quiet, KvStore());
        quiet := KvStore();
        t := ReserveFirst(id, ids);
      }
    }

    method Attach(id: string, ids: seq<Token>, m: PrefixMatch)
      requires StoreValid() && id != "" && id !in manager.requests && Usable(KvStore(), ids, m, predict)
      modifies manager, manager.allocator
      ensures Wired() && KvStore() == WithTable(old(KvStore()), id, Table(m.blocks, m.tokenCount))
    {
      hide Counts, FreeListOf, Coherent, Consistent, Mirrors, WellFormed, Catalog, Stored, KvOf;
      ghost var v := cache.Snapshot();
      forall b: nat | b in m.blocks ensures b < manager.allocator.numBlocks && Holders(v.owned, b) != {} {
        assert CacheHolders(v.owned, b) <= Holders(v.owned, b);
      }
      assert (|m.blocks| - 1) * manager.allocator.blockSize < m.tokenCount;
      var attached := manager.AttachPrefix(id, m.blocks, m.tokenCount);
      RequestsOnly(v, manager.allocator.allocations, manager.allocator.blockSize);
    }

    method ReserveFirst(id: string, ids: seq<Token>) returns (t: Option<Table>)
      requires StoreValid() && id != "" && id !in manager.requests && ids != []
      modifies manager, manager.allocator
      ensures Wired() && (t.None? ==> KvStore() == old(KvStore()) && cache.Snapshot() == old(cache.Snapshot()))
      ensures t.None? <==> old(manager.allocator.freeBlocks) == []
      ensures t.None? ==> manager.allocator.freeBlocks == []
      ensures t.Some? ==> t.value.length == 0
      ensures t.Some? ==> && StartsFrom(old(KvStore()), ids, t.value, None, predict)
                          && KvStore() == WithTable(old(KvStore()), id, t.value)
    {
      hide Counts, FreeListOf, Coherent, Mirrors, WellFormed, Catalog, Stored, KvOf, StartsFrom, Consistent, Holders,
           Min;
      ghost var before, v, free := KvStore(), cache.Snapshot(), manager.allocator.freeBlocks;
      manager.allocator.SparesAreUnlisted();
      var size := manager.allocator.blockSize;
      FirstBlock(|ids|, size);
      ghost var count := BlocksFor(Min(|ids|, size), size);
      if count <= |free| {
        PoppedSplits(free, manager.allocator.refcounts, count);
        StoreShape(before, predict);
        FreshStart(before, ids, Popped(free, count), predict);
      }
      var reserved := manager.Reserve(id, Min(|ids|, size), 0);
      RequestsOnly(v, manager.allocator.allocations, size);
      return if reserved.Ok? then Some(reserved.value) else None;
    }

    // Admits the request at the head of the queue if it can have a first block.
    method AdmitHead() returns (ok: bool)
      requires Valid() && waiting != []
      modifies this`gens, this`active, this`waiting, this`prefillOrder, manager, manager.allocator, cache
      ensures Valid() && Evolves(old(gens), gens) && gens.Keys == old(gens).Keys
      ensures forall x | x in old(active) :: RowKept(old(Snapshot()), Snapshot(), x)
      ensures forall x | x in old(gens) && x != old(waiting)[0] :: gens[x] == old(gens)[x]
      ensures !ok ==> gens == old(gens) && active == old(active) && waiting == old(waiting) && Starved()
      ensures ok ==> prefillOrder == old(prefillOrder) + [old(waiting)[0]]
      ensures ok ==> old(waiting)[0] in old(gens) && old(KvStore()).size > 0
                     && ReusesLongest(old(KvStore()), old(gens)[old(waiting)[0]].PrefillIds(),
                                      old(gens)[old(waiting)[0]].greedy, gens[old(waiting)[0]].prefilled)
      ensures ok ==> && waiting == old(waiting)[1..] && active == old(active) + {old(waiting)[0]}
                     && old(waiting)[0] !in old(active)
                     && HitOk(gens[old(waiting)[0]], predict) && gens[old(waiting)[0]].phase.Prefilling?
                     && JustAdmitted(old(gens)[old(waiting)[0]], gens[old(waiting)[0]])
    {
      hide Counts, FreeListOf, Coherent, Mirrors, WellFormed, Catalog, Undisturbed, StartsFrom, Consistent, RowOk,
           GenOk, Continues, HitOk, OthersUndisturbed, Placed, Inv, Distinct, ReusesLongest, Starved, RowKept, Evolves;
      ghost var before := Snapshot();
      var id := waiting[0];
      HeadFacts(before, predict, eos);
      WaitingFacts(before, id, predict, eos);
      var g := gens[id];
      var t, next;
      ghost var quiet;
      t, next, quiet := TakeTable(id, g.PrefillIds(), g.greedy);
      QuietChangeKeepsInv(before, quiet, id, predict, eos);
      ghost var middle := before.(store := quiet);
      RowsKeptQuietly(before, middle, predict, eos);
      EvolvesSelf(gens);
      if t.None? {
        return false;
      }
      Join(id, t.value, next, quiet);
      RowsKeptOnAdmission(before, middle, Snapshot(), id, predict, eos);
      return true;
    }

    // The head of the queue becomes active over the table it was given.
    method Join(id: string, t: Table, next: Option<Token>, ghost quiet: Store)
      requires Wired() && InLine() && KvStore() == WithTable(quiet, id, t)
      requires Inv(State(quiet, gens, active, waiting, reserved), predict, eos)
      requires waiting != [] && id == waiting[0] && id in gens
      requires StartsFrom(quiet, gens[id].PrefillIds(), t, next, predict)
      modifies this`gens, this`active, this`waiting, this`prefillOrder
      ensures Valid() && gens == old(gens)[id := Admitted(old(gens)[id], t, next)] && active == old(active) + {id}
      ensures waiting == old(waiting)[1..] && prefillOrder == old(prefillOrder) + [id]
      ensures id !in old(active) && HitOk(gens[id], predict) && Continues(old(gens)[id], gens[id])
      ensures JustAdmitted(old(gens)[id], gens[id])
      ensures OthersUndisturbed(quiet, KvStore(), id)
    {
      hide Counts, FreeListOf, Coherent, Mirrors, WellFormed, Catalog, Undisturbed, StartsFrom, Consistent, RowOk,
           GenOk, Continues, HitOk, OthersUndisturbed, Placed, Inv, Distinct, Admitted, WithTable;
      ghost var middle := State(quiet, gens, active, waiting, reserved);
      HeadFacts(middle, predict, eos);
      AdmittedOk(middle, id, t, next, predict, eos);
      AdmittedIsPrefilling(gens[id], t, next);
      AdmissionKeepsInv(middle, id, t, Admitted(gens[id], t, next), waiting[1..], predict, eos);
      gens, active, waiting := gens[id := Admitted(gens[id], t, next)], active + {id}, waiting[1..];
      JoinsLine(prefillOrder, id);
      prefillOrder := prefillOrder + [id];
    }

    // Rejects the request at the head of the queue: it could never fit, even alone.
    method RejectHead()
      requires Valid() && waiting != []
      modifies this`gens, this`waiting
      ensures Valid() && waiting[..] == old(waiting)[1..] && old(waiting)[0] in old(gens)
      ensures gens == old(gens)[old(waiting)[0] := Rejection(old(gens)[old(waiting)[0]])]
      ensures Evolves(old(gens), gens) && forall x | x in active :: RowKept(old(Snapshot()), Snapshot(), x)
    {
      hide Counts, FreeListOf, Coherent, Mirrors, WellFormed, Catalog, Undisturbed, Consistent, RowOk, Placed, Inv;
      ghost var before := Snapshot();
      var id := waiting[0];
      HeadFacts(before, predict, eos);
      WaitingFacts(before, id, predict, eos);
      RejectionOk(before, id, waiting[1..], predict, eos);
      gens, waiting := gens[id := Rejection(gens[id])], waiting[1..];
    }

    // Admits queued requests in order while request slots and memory last.
    method AdmitAvailable() returns (admitted: seq<string>, ghost k: nat)
      requires Valid()
      modifies this`gens, this`active, this`waiting, this`prefillOrder, manager, manager.allocator, cache
      ensures Valid()
      ensures Admitting(old(Snapshot()), Snapshot(), k, admitted, EffectiveCapacity(), predict)
      ensures |active| <= if |old(active)| < limits.maxActive then limits.maxActive else |old(active)|
      ensures NoneParked(old(gens), admitted, old(active) == {}, epoch)
      ensures || waiting == [] || |active| >= limits.maxActive || Starved()
              || (&& waiting[0] in gens && Fits(gens[waiting[0]], EffectiveCapacity())
                  && Parked(gens[waiting[0]], epoch, active))
      ensures waiting != [] && |active| < limits.maxActive && !Starved() ==>
        && active != {} && waiting[0] in gens
        && gens[waiting[0]].recomputing && gens[waiting[0]].preemptedAtEpoch >= epoch
      ensures QueueSifted(old(gens), gens, (manager.allocator.numBlocks - reservedBlocks) * manager.allocator.blockSize)
    {
      hide Counts, FreeListOf, Coherent, Mirrors, WellFormed, Catalog, Consistent, Inv, Admitting, HitOk, RowKept,
           Evolves, Fits, Parked, Starved, InLine, NoneParked, QueueSifted;
      ghost var before, capacity := Snapshot(), EffectiveCapacity();
      admitted, k := [], 0;
      StartAdmitting(before, capacity, predict, eos);
      NobodyAdmitted(gens, active == {}, epoch);
      while waiting != [] && |active| < limits.maxActive
        invariant Valid() && Admitting(before, Snapshot(), k, admitted, capacity, predict)
        invariant |active| <= if |before.active| < limits.maxActive then limits.maxActive else |before.active|
        invariant admitted != [] ==> active != {}
        invariant before.active != {} ==> active != {}
        invariant NoneParked(before.gens, admitted, before.active == {}, epoch)
        decreases |waiting|
      {
        ghost var turn := Snapshot();
        ServedSoFar(before, turn, k, admitted, capacity, predict);
        var id := waiting[0];
        if !Fits(gens[id], EffectiveCapacity()) {
          RejectHead();
          HeadLeft(before, turn, Snapshot(), k, admitted, capacity, predict);
          k := k + 1;
          continue;
        }
        if Parked(gens[id], epoch, active) {
          break;
        }
        var ok := AdmitHead();
        if !ok {
          StillAdmitting(before, turn, Snapshot(), k, admitted, capacity, predict);
          break;
        }
        HeadLeft(before, turn, Snapshot(), k, admitted, capacity, predict);
        AnotherAdmitted(before.gens, admitted, id, before.active == {}, epoch, turn.active);
        admitted, k := admitted + [id], k + 1;
      }
      CapacityMeans();
      QueueIsSifted(before, Snapshot(), k, admitted, capacity, predict);
      if waiting != [] && waiting[0] in gens { ParkedMeans(gens[waiting[0]], epoch, active); }
    }

    // All pages that are not set aside, full.
    lemma CapacityMeans()
      requires Wired()
      ensures EffectiveCapacity() == (manager.allocator.numBlocks - reservedBlocks) * manager.allocator.blockSize
    {
      hide Counts, FreeListOf, Coherent, Mirrors, WellFormed, Catalog;
    }

    // When admission is out of memory no block is within reach.
    lemma StarvedIsOut()
      requires Wired() && Starved()
      ensures Obtainable(KvStore()) <= 0
    {
      hide Forest, Owns, Referenced, Stamped, Counts, FreeListOf, Unreclaimable, OutOfReach, Used, Evictable;
      cache.FreeAndUsed();
      AllReclaimed(cache.Snapshot(), manager.allocator.blockSize, manager.allocator.numBlocks);
      ForestShown();
      ReachShown(KvStore(), cache.Snapshot());
    }

    // Tokens that a single request can obtain, alone, once everything else is gone.
    function EffectiveCapacity(): nat
      reads this
    {
      if reservedBlocks <= manager.allocator.numBlocks
      then (manager.allocator.numBlocks - reservedBlocks) * manager.allocator.blockSize
      else 0
    }

    // ---- prefill batches and fused steps ----------------------------------------------------

    // One prefill batch: room first, then one forward pass over the chunks and the commit. A
    // batch of whole fresh prompts takes the padded path, which replays resumed histories.
    method PrefillChunks(plans: seq<Plan>) returns (ok: bool)
      requires Valid() && PrefillPlans(gens, active, plans)
      modifies this, manager, manager.allocator, cache, pool.cells
      ensures ok && Valid()
      ensures BatchProgress(old(Snapshot()), Snapshot(), Tasks(plans), eos, old(epoch))
      ensures Ticked(old(Snapshot()), old(epoch), Snapshot(), epoch)
      ensures OldestDecided(old(Snapshot()), Snapshot(), Tasks(plans), eos)
      ensures Turned(old(gens), gens, {}, map[], predict, eos)
      ensures Roomy() ==> Filed(old(Snapshot()), Snapshot())
    {
      hide Counts, FreeListOf, Coherent, Consistent, Mirrors, WellFormed, Catalog, Inv, Moved, Ready, PlansOk, RowsOk,
           Thinned, AllCarriedOut, PrefillPlans, BatchProgress, Bystanders, Unhindered, OldestServed, OldestDecided,
           Ticked, Filed, Turned, AllTurned;
      ghost var before := Snapshot();
      var replay := AllFresh(gens, plans);
      PrefillPlansOk(before, plans, predict, eos);
      var rows := AcquireAll(plans);
      ghost var middle, now := Snapshot(), epoch;
      PrefillRowsReady(before, middle, plans, rows, replay, old(epoch));
      ok := RunRows(rows, map[], replay);
      PlannedArePrefilling(before, plans);
      PlannedArePrefilling(middle, rows);
      TurnedByRun(before, middle, Snapshot(), rows, {}, map[], old(epoch), predict, eos);
      BatchIsProgress(before, middle, Snapshot(), plans, rows, eos, old(epoch), predict);
      BatchTicked(before, old(epoch), middle, now, Snapshot(), epoch, RowIds(rows), predict, eos);
      OldestOfBatch(before, middle, Snapshot(), plans, rows, eos, old(epoch));
      if Roomy() { FiledByRun(before, middle, Snapshot(), rows, eos, old(epoch)); }
    }

    // One forward pass over decode rows that already have room and the planned chunks. With
    // one side empty it falls back to the separate paths.
    method FusedRowsStep(rows: seq<Plan>, plans: seq<Plan>) returns (ok: bool)
      requires Valid() && RowsOk(Snapshot(), rows, map[], false) && PrefillPlans(gens, active, plans)
      requires forall plan | plan in rows :: plan.id in gens && gens[plan.id].phase.Decoding?
      modifies this, manager, manager.allocator, cache, pool.cells
      ensures ok && Valid()
      ensures BatchProgress(old(Snapshot()), Snapshot(), Tasks(rows + plans), eos, old(epoch))
      ensures Ticked(old(Snapshot()), old(epoch), Snapshot(), epoch)
      ensures OldestCarriedOut(old(Snapshot()), Snapshot(), rows, eos)
      ensures OldestDecided(old(Snapshot()), Snapshot(), Tasks(plans), eos)
      ensures Turned(old(gens), gens, RowIds(rows), map[], predict, eos)
      ensures Roomy() ==> Filed(old(Snapshot()), Snapshot())
    {
      hide Counts, FreeListOf, Coherent, Consistent, Mirrors, WellFormed, Catalog, Inv, Moved, Ready, PlansOk, RowsOk,
           Thinned, AllCarriedOut, PrefillPlans, BatchProgress, Bystanders, Unhindered, OldestServed, OldestDecided,
           Oldest, CarriedOut, Ticked, Filed, Turned, AllTurned;
      ghost var before := Snapshot();
      PrefillPlansOk(before, plans, predict, eos);
      PlannedArePrefilling(before, plans);
      RowsAreActive(before, rows);
      var viable := AcquireAll(plans);
      var left := StillActive(rows, active);
      ghost var middle, later := Snapshot(), epoch;
      PrefillRowsReady(before, middle, plans, viable, false, old(epoch));
      FusedRowsReady(before, middle, rows, left, plans, old(epoch));
      OldestHasRow(before, middle, rows, left, plans);
      if left == [] && viable != [] {
        assert viable[0] in viable && viable[0].id in active;
        ok := PrefillChunks(viable);
        ProgressTicked(before, old(epoch), middle, later, Snapshot(), epoch, Tasks(viable), eos, predict);
        assert left + viable == viable;
        ThinnedThenProgress(before, middle, Snapshot(), rows + plans, viable, eos, old(epoch), predict);
        FallbackTurned(before, middle, Snapshot(), RowIds(rows), old(epoch), predict, eos);
        OldestThroughFallback(before, middle, Snapshot(), plans, viable, false, eos, old(epoch), later, predict);
        if Roomy() { FiledThroughRoom(before, middle, Snapshot(), Tasks(viable), eos, old(epoch), later); }
        return;
      }
      PlannedArePrefilling(middle, viable);
      FusedBatchOk(middle, left, viable);
      ok := RunRows(left + viable, map[], false);
      BatchIsProgress(before, middle, Snapshot(), rows + plans, left + viable, eos, old(epoch), predict);
      BatchTicked(before, old(epoch), middle, later, Snapshot(), epoch, RowIds(left + viable), predict, eos);
      FusedTurned(before, middle, Snapshot(), rows, left, viable, old(epoch), predict, eos);
      OldestInRun(before, middle, Snapshot(), rows, left, viable, eos, old(epoch));
      OldestOfBatch(before, middle, Snapshot(), plans, left + viable, eos, old(epoch));
      if Roomy() { FiledByRun(before, middle, Snapshot(), left + viable, eos, old(epoch)); }
    }

    // ---- the serving loop -------------------------------------------------------------------

    // Admitted requests whose whole prompt was cached start decoding at once.
    method CompleteHits(admitted: seq<string>)
      requires Valid() && Distinct(admitted)
      requires forall x | x in admitted :: HitReady(Snapshot(), x, predict)
      modifies this, manager, manager.allocator, cache
      ensures Valid() && HitsDone(old(Snapshot()), Snapshot(), admitted, eos)
      ensures Ticked(old(Snapshot()), old(epoch), Snapshot(), epoch)
      ensures Roomy() ==> Archived(old(Snapshot()), Snapshot())
    {
      hide Counts, FreeListOf, Coherent, Consistent, Mirrors, WellFormed, Catalog, Inv, Moved, HitReady, Completed,
           KvOf, Distinct, HitsDone, Ticked, Archived;
      ghost var before := Snapshot();
      StartHits(before, admitted, predict, eos);
      NotTicked(before, epoch);
      ArchivedSelf(before);
      for i := 0 to |admitted|
        invariant Valid() && HitsDone(before, Snapshot(), admitted[..i], eos)
        invariant Ticked(before, old(epoch), Snapshot(), epoch)
        invariant Roomy() ==> Archived(before, Snapshot())
        invariant forall j | i <= j < |admitted| :: HitReady(Snapshot(), admitted[j], predict)
      {
        ghost var turn, now := Snapshot(), epoch;
        var id := admitted[i];
        HitReadyFacts(turn, id, predict);
        ArchivedSelf(turn);
        if FullyPrefilled(gens[id]) {
          ghost var kept := CompletePrefill(id, gens[id].cachedNext);
        } else {
          MovedSelf(turn, id, predict, eos);
          NotTicked(turn, epoch);
        }
        HitsTicked(before, old(epoch), turn, now, Snapshot(), epoch, admitted, i, eos);
        if Roomy() { HitArchived(before, turn, Snapshot(), admitted, i, eos); }
        HitDone(before, turn, Snapshot(), admitted, i, predict, eos);
      }
      assert admitted[..|admitted|] == admitted;
    }

    // What the proposer has to offer to the rows that may speculate.
    method TakeOffers(decoding: set<string>, offers: map<string, seq<Token>>) returns (drafts: map<string, seq<Token>>)
      requires forall id | id in decoding :: id in gens
      ensures Drafting(gens, decoding, offers, drafts, limits.depth)
    {
      drafts := map x | && x in decoding && x in offers && gens[x].greedy && 0 < |offers[x]| <= limits.depth
                        && |gens[x].outputs| + |offers[x]| + 1 <= gens[x].maxNew :: offers[x];
    }

    // Speculation: drafts of any content for eligible rows, verified in groups of equal depth;
    // the other rows take an ordinary decode step. Everybody gets a turn.
    method SpeculativeDecodeStep(decoding: set<string>, offers: map<string, seq<Token>>)
      returns (ok: bool, ghost proposed: map<string, seq<Token>>)
      requires Valid() && decoding <= active && forall id | id in decoding :: id in gens && gens[id].phase.Decoding?
      modifies this, manager, manager.allocator, cache, pool.cells
      ensures ok && Valid() && Evolves(old(gens), gens) && gens.Keys == old(gens).Keys && active <= old(active)
      ensures forall id | id in decoding :: Fared(old(Snapshot()), Snapshot(), id)
      ensures Drafting(old(gens), decoding, offers, proposed, limits.depth)
      ensures OldestDecoded(old(Snapshot()), Snapshot(), false, decoding, proposed)
      ensures Turned(old(gens), gens, decoding, proposed, predict, eos)
      ensures Served(old(Snapshot()), old(epoch), Snapshot(), epoch)
    {
      hide Counts, FreeListOf, Coherent, Consistent, Mirrors, WellFormed, Catalog, Inv, Evolves, BatchProgress, Fared,
           Oldest, Waited, OldestDecided, OldestDecoded, Turns, Served, Ticked, Turned, Drafting, DraftsOk;
      ghost var before := Snapshot();
      var drafts := TakeOffers(decoding, offers);
      DraftingIsOk(gens, decoding, offers, drafts, limits.depth);
      ok, proposed := true, drafts;
      AllActive(before, predict, eos);
      TurnedNobody(gens, predict, eos);
      TurnedMore(gens, gens, {}, Early(drafts, 1), map[], drafts, predict, eos);
      StartTurns(before, epoch, decoding, drafts, limits.depth);
      for depth := 1 to limits.depth + 1
        invariant Turned(before.gens, gens, Early(drafts, depth), drafts, predict, eos)
        invariant ok && Valid() && Turns(before, old(epoch), Snapshot(), epoch, decoding, drafts, depth)
      {
        ghost var turn, now := Snapshot(), epoch;
        TurnsFacts(before, old(epoch), turn, now, decoding, drafts, depth);
        var group := set x | x in drafts && x in active && gens[x].phase.Decoding? && |drafts[x]| == depth;
        ok := DecodePass(group, drafts);
        TurnedOn(before.gens, turn.gens, gens, Early(drafts, depth), group, drafts, predict, eos);
        TurnedMore(before.gens, gens, Early(drafts, depth) + group, Early(drafts, depth + 1), drafts, drafts, predict,
                   eos);
        TurnsGoOn(before, old(epoch), turn, now, Snapshot(), epoch, decoding, drafts, depth, group, eos, predict);
      }
      ok := OrdinaryTurns(decoding, drafts, before, old(epoch));
    }

    // The last part of a speculative step: the rows without a draft.
    method OrdinaryTurns(decoding: set<string>, drafts: map<string, seq<Token>>, ghost before: State, ghost since: nat)
      returns (ok: bool)
      requires Valid() && Turned(before.gens, gens, Early(drafts, limits.depth + 1), drafts, predict, eos)
      requires Turns(before, since, Snapshot(), epoch, decoding, drafts, limits.depth + 1)
      requires drafts.Keys <= decoding && forall x | x in drafts :: |drafts[x]| <= limits.depth
      modifies this, manager, manager.allocator, cache, pool.cells
      ensures ok && Valid() && Evolves(before.gens, gens) && gens.Keys == before.gens.Keys && active <= before.active
      ensures forall id | id in decoding :: Fared(before, Snapshot(), id)
      ensures OldestDecoded(before, Snapshot(), false, decoding, drafts)
      ensures Turned(before.gens, gens, decoding, drafts, predict, eos)
      ensures Served(before, since, Snapshot(), epoch)
    {
      hide Counts, FreeListOf, Coherent, Consistent, Mirrors, WellFormed, Catalog, Inv, Evolves, BatchProgress, Fared,
           Oldest, Waited, OldestDecided, OldestDecoded, Turns, Served, Ticked, Turned;
      ghost var turn, now := Snapshot(), epoch;
      TurnsFacts(before, since, turn, now, decoding, drafts, limits.depth + 1);
      var ordinary := set x | x in decoding && x !in drafts && x in active && gens[x].phase.Decoding?;
      ok := DecodePass(ordinary, map[]);
      TurnedMore(turn.gens, gens, ordinary, ordinary, map[], drafts, predict, eos);
      TurnedOn(before.gens, turn.gens, gens, Early(drafts, limits.depth + 1), ordinary, drafts, predict, eos);
      TurnedMore(before.gens, gens, Early(drafts, limits.depth + 1) + ordinary, decoding, drafts, drafts, predict, eos);
      TurnsEnd(before, since, turn, now, Snapshot(), epoch, decoding, drafts, limits.depth + 1, ordinary, eos, predict);
    }

    // The decode part of an iteration. With fused steps the rows only find their room here and
    // wait for the prefill plan to share a forward pass with it.
    method DecodePhase(offers: map<string, seq<Token>>)
      returns (ok: bool, fused: bool, rows: seq<Plan>, ghost drafts: map<string, seq<Token>>)
      requires Valid()
      modifies this, manager, manager.allocator, cache, pool.cells
      ensures ok && Valid() && Decoded(old(Snapshot()), Snapshot(), fused, rows, old(epoch))
      ensures fused == (limits.fused && limits.depth == 0 && SomeDecoding(old(gens), old(active)))
      ensures RowsOk(Snapshot(), rows, map[], false)
      ensures forall plan | plan in rows :: plan.id in gens && gens[plan.id].phase.Decoding?
      ensures old(active) <= old(gens).Keys
      ensures Drafting(old(gens), DecodingIn(old(Snapshot())), offers, drafts, limits.depth)
      ensures OldestDecoded(old(Snapshot()), Snapshot(), fused, DecodingIn(old(Snapshot())), drafts)
      ensures Served(old(Snapshot()), old(epoch), Snapshot(), epoch)
      ensures Turned(old(gens), gens, if fused then {} else DecodingIn(old(Snapshot())), drafts, predict, eos)
      ensures fused ==> drafts == map[]
      ensures DecodingIn(old(Snapshot())) == {} ==> Snapshot() == old(Snapshot())
    {
      hide Counts, FreeListOf, Coherent, Consistent, Mirrors, WellFormed, Catalog, Inv, Evolves, BatchProgress, RowsOk,
           Moved, Thinned, Decoded, Fared, DecodeOrder, Oldest, OldestDecided, OldestDecoded, OldestServed, Waited,
           Unhindered, Bystanders, Served, Ticked, Turned;
      ghost var before := Snapshot();
      EvolvesSelf(gens);
      AllActive(before, predict, eos);
      var decoding := set x | x in active && gens[x].phase.Decoding?;
      var speculative := limits.depth > 0 && decoding != {};
      if !speculative { NobodyDrafts(gens, decoding, offers, limits.depth); }
      ok, fused, rows, drafts := true, limits.fused && decoding != {} && !speculative, [], map[];
      assert decoding == DecodingIn(before);
      if speculative {
        ok, drafts := SpeculativeDecodeStep(decoding, offers);
        AllFared(before, Snapshot(), decoding, old(epoch));
      } else if fused {
        ghost var order, todo;
        rows, order, todo := DecodeViable(decoding, map[]);
        BatchThinned(before, Snapshot(), old(epoch), predict, eos);
        WaitingForFusion(before, Snapshot(), decoding, order, todo, rows, old(epoch));
        ThinnedTurned(before, Snapshot(), old(epoch), predict, eos);
        OldestForFusion(before, Snapshot(), decoding, order, todo);
        ThinnedServed(before, old(epoch), Snapshot(), epoch, predict, eos);
        return;
      } else if decoding != {} {
        ok := DecodePass(decoding, map[]);
        OrdinaryStep(before, Snapshot(), decoding, eos, old(epoch), predict);
        ProgressFacts(before, Snapshot(), DecodeTasks(decoding, map[]), eos, old(epoch));
        OldestOrdinary(before, Snapshot(), decoding, eos);
        BatchServed(before, old(epoch), Snapshot(), epoch, DecodeTasks(decoding, map[]), eos, predict);
      } else {
        AllFared(before, before, decoding, old(epoch));
        NobodyDecodes(before);
        TurnedNobody(gens, predict, eos);
        ServedNothing(before, epoch);
      }
      NoRows(Snapshot());
    }

    // The admission part: waiting rows keep the room they found.
    method AdmitPhase(rows: seq<Plan>) returns (ghost joined: State, ghost k: nat, admitted: seq<string>)
      requires Valid() && RowsOk(Snapshot(), rows, map[], false)
      requires forall plan | plan in rows :: plan.id in gens && gens[plan.id].phase.Decoding?
      modifies this, manager, manager.allocator, cache
      ensures Valid() && Admitting(old(Snapshot()), joined, k, admitted, EffectiveCapacity(), predict)
      ensures HitsDone(joined, Snapshot(), admitted, eos) && Evolves(old(gens), gens)
      ensures Joined(old(Snapshot()), old(epoch), Snapshot(), epoch, admitted)
      ensures NoneParked(old(gens), admitted, old(active) == {}, old(epoch))
      ensures old(active) == {} && k == 0 ==> old(waiting) == []
      ensures Turned(old(gens), gens, {}, map[], predict, eos)
      ensures HeadHeld(joined, limits.maxActive, Obtainable(joined.store) <= 0, old(epoch))
      ensures Endings(old(gens), gens, EffectiveCapacity())
      ensures Roomy() ==> Filed(joined, Snapshot())
      ensures RowsOk(Snapshot(), rows, map[], false)
      ensures forall plan | plan in rows :: plan.id in gens && gens[plan.id].phase.Decoding?
    {
      hide Counts, FreeListOf, Coherent, Consistent, Mirrors, WellFormed, Catalog, Inv, Evolves, RowsOk, Moved,
           Admitting, HitReady, NoneParked, Ticked, Joined, Starved, Fits, Filed, Turned, Endings,
           Obtainable, NothingFreeable, QueueSifted;
      ghost var before := Snapshot();
      admitted, k := AdmitAvailable();
      joined := Snapshot();
      if active == {} { IdleHasMemory(); }
      if Starved() { StarvedIsOut(); }
      NothingTaken(before, joined, k, admitted, EffectiveCapacity(), predict);
      AdmittedHits(before, joined, k, admitted, EffectiveCapacity(), predict, eos);
      CompleteHits(admitted);
      ArchivedIsFiled(joined, Snapshot());
      RowsThroughAdmission(before, joined, Snapshot(), rows, admitted, k, EffectiveCapacity(), predict);
      AdmissionTurned(before, joined, Snapshot(), admitted, k, EffectiveCapacity(), predict, eos);
      AdmissionEndings(before, joined, Snapshot(), admitted, k, EffectiveCapacity(), predict, eos);
      MovedEvolves(joined, Snapshot(), Named(admitted));
      EvolvesOn(before.gens, joined.gens, gens);
      AdmissionJoins(before, old(epoch), joined, Snapshot(), epoch, k, admitted, EffectiveCapacity(), predict, eos);
    }

    // Round robin: at most one chunk per active request, within the iteration's budget.
    method PlanPrefill() returns (plans: seq<Plan>, ghost visited: seq<string>)
      requires Valid()
      modifies this`prefillOrder
      ensures Valid() && PrefillPlans(gens, active, plans)
      ensures visited <= old(prefillOrder) && prefillOrder == Rotated(old(prefillOrder), |visited|)
      ensures RoundRobin(gens, visited, plans, limits.chunk, limits.budget)
      ensures |visited| < |prefillOrder| ==> Total(plans) == limits.budget
      ensures plans == [] ==> forall x | x in active && x in gens :: Remaining(gens[x]) == 0
    {
      hide Counts, FreeListOf, Coherent, Consistent, Mirrors, WellFormed, Catalog, Inv, RoundRobin, Distinct, Total,
           PrefillPlans, Rotated, Remaining;
      ghost var line := prefillOrder;
      AllActive(Snapshot(), predict, eos);
      NothingVisited(gens, limits.chunk, limits.budget);
      NotRotated(line);
      var visits := |prefillOrder|;
      var budget := limits.budget;
      plans := [];
      ghost var turns := 0;
      for i := 0 to visits
        invariant turns == i && prefillOrder == Rotated(line, i)
        invariant RoundRobin(gens, line[..i], plans, limits.chunk, limits.budget)
        invariant 0 < budget == limits.budget - Total(plans)
      {
        RotatedOnce(line, i);
        assert line[i] in line;
        OneVisit(gens, line, i, plans, limits.chunk, limits.budget);
        turns := i + 1;
        var id := prefillOrder[0];
        prefillOrder := prefillOrder[1..] + if id in active then [id] else [];
        var count := Least(Remaining(gens[id]), limits.chunk, budget);
        if count > 0 {
          plans := plans + [Plan(id, count)];
          budget := budget - count;
        }
        if budget == 0 {
          break;
        }
      }
      visited := line[..turns];
      RotatedFacts(line, turns);
      VisitedAreDistinct(line, turns);
      RoundRobinIsPlan(gens, active, visited, plans, limits.chunk, limits.budget);
      if plans == [] { NobodyNeedsChunk(gens, line, turns, limits.chunk, limits.budget); }
    }

    // The prefill part: chunks are planned in turn and run, with the waiting decode rows if there
    // are any.
    method PrefillPhase(fused: bool, rows: seq<Plan>) returns (ok: bool, plans: seq<Plan>, ghost visited: seq<string>)
      requires Valid() && RowsOk(Snapshot(), rows, map[], false) && (!fused ==> rows == [])
      requires forall plan | plan in rows :: plan.id in gens && gens[plan.id].phase.Decoding?
      modifies this, manager, manager.allocator, cache, pool.cells
      ensures ok && Valid() && PrefillPlans(old(gens), old(active), plans)
      ensures RoundRobin(old(gens), visited, plans, limits.chunk, limits.budget)
      ensures plans == [] ==> forall x | x in old(active) && x in old(gens) :: Remaining(old(gens)[x]) == 0
      ensures BatchProgress(old(Snapshot()), Snapshot(), Tasks(rows + plans), eos, old(epoch))
      ensures Ticked(old(Snapshot()), old(epoch), Snapshot(), epoch)
      ensures OldestCarriedOut(old(Snapshot()), Snapshot(), rows, eos)
      ensures OldestDecided(old(Snapshot()), Snapshot(), Tasks(plans), eos)
      ensures Turned(old(gens), gens, RowIds(rows), map[], predict, eos)
      ensures Roomy() ==> Filed(old(Snapshot()), Snapshot())
      ensures plans == [] && !fused ==> Snapshot() == old(Snapshot())
    {
      hide Counts, FreeListOf, Coherent, Consistent, Mirrors, WellFormed, Catalog, Inv, RowsOk, PrefillPlans,
           RoundRobin, BatchProgress, InLine, OldestDecided, OldestCarriedOut, Ticked, Remaining, Filed, Turned;
      ghost var started := Snapshot();
      plans, visited := PlanPrefill();
      if fused {
        ok := FusedRowsStep(rows, plans);
        return;
      }
      ok := true;
      assert rows + plans == plans && RowIds(rows) == {};
      NoRowsCarriedOut(started, started, eos);
      if plans != [] {
        ok := PrefillChunks(plans);
        NoRowsCarriedOut(started, Snapshot(), eos);
      } else {
        NothingPlanned(started, eos, epoch, predict);
        ArchivedSelf(started);
        TurnedNobody(gens, predict, eos);
        ArchivedIsFiled(started, started);
        NotTicked(started, epoch);
      }
    }

    // One decode-first scheduling iteration.
    method Step(offers: map<string, seq<Token>>) returns (ok: bool, ghost trail: Trail)
      requires Valid()
      modifies this, manager, manager.allocator, cache, pool.cells
      ensures ok && Valid() && Evolves(old(gens), gens)
      ensures trail.fused == (limits.fused && limits.depth == 0 && SomeDecoding(old(gens), old(active)))
      ensures Iterated(old(Snapshot()), trail, Snapshot(), EffectiveCapacity(), limits.chunk, limits.budget, predict,
                       eos)
      ensures Drafting(old(gens), DecodingIn(old(Snapshot())), offers, trail.drafts, limits.depth)
      ensures FirstServed(old(Snapshot()), trail, Snapshot(), eos)
      ensures Turned(old(gens), gens, DecodingIn(old(Snapshot())), trail.drafts, predict, eos)
      ensures HeadHeld(trail.joined, limits.maxActive, Obtainable(trail.joined.store) <= 0, trail.middle)
      ensures Endings(old(gens), gens, EffectiveCapacity())
      ensures DecodingIn(old(Snapshot())) == {} ==> trail.decoded == old(Snapshot())
      ensures Roomy() ==> Filed(trail.joined, trail.started) && Filed(trail.started, Snapshot())
      ensures trail.plans == [] && !trail.fused ==> Snapshot() == trail.started
      ensures old(Steady()) ==> Steady()
      ensures old(Steady()) && old(Alive(Snapshot())) != {} ==>
                Smaller(old(Snapshot()), old(epoch), Snapshot(), epoch)
    {
      hide Counts, FreeListOf, Coherent, Consistent, Mirrors, WellFormed, Catalog, Inv, Evolves, RowsOk, PrefillPlans,
           Moved, Decoded, Admitting, HitsDone, RoundRobin, BatchProgress, First, Iterated, InLine, Oldest,
           OldestDecided, OldestDecoded, OldestCarriedOut, TokenOrFailure, Served, Joined, Ticked, Advance, Timely,
           Brisk, Alive, Smaller, NoneParked, Remaining, Filed, Turned, FirstServed, HeadHeld, Endings, Obtainable;
      ghost var before, since := Snapshot(), epoch;
      var fused, rows;
      ghost var drafts;
      ok, fused, rows, drafts := DecodePhase(offers);
      ghost var decoded, joined, k, middle := Snapshot(), before, 0, epoch;
      var admitted;
      joined, k, admitted := AdmitPhase(rows);
      ghost var started, later, visited := Snapshot(), epoch, [];
      if !fused { DecodedAlone(before, decoded, rows, since); }
      var plans;
      ok, plans, visited := PrefillPhase(fused, rows);
      trail := Trail(decoded, joined, started, fused, rows, k, admitted, visited, plans, since, middle, later, drafts);
      JoinedKeys(decoded, middle, started, later, admitted);
      IterationTurned(before, trail, Snapshot(), predict, eos);
      IterationDone(before, trail, Snapshot(), EffectiveCapacity(), limits.chunk, limits.budget, predict, eos);
      TasksAreActive(started, rows, plans);
      PlannedArePrefilling(started, plans);
      AdvanceMade(before, since, trail, middle, Snapshot(), epoch, eos, predict);
      IterationAdvances(before, since, trail, middle, Snapshot(), epoch, EffectiveCapacity(), predict, eos);
      IterationEnds(before, since, trail, middle, Snapshot(), epoch, EffectiveCapacity(), predict, eos);
      FirstIsServed(before, trail, Snapshot(), EffectiveCapacity(), limits.chunk, limits.budget, predict, eos);
    }

    // Conservation at drain: when no request is active, every used block is either set aside
    // for padded graph rows or cached, none is both, and the counts add up.
    lemma Drained()
      requires Valid() && active == {}
      ensures var aside := SetAside(manager.requests, DUMMY_ROWS);
              && Members(aside) !! cache.references.Keys
              && manager.allocator.numBlocks - |manager.allocator.freeBlocks| == |aside| + |cache.references|
    {
      hide Inv, Coherent, Counts, FreeListOf, Consistent, Mirrors, WellFormed, Catalog, Used;
      cache.FreeAndUsed();
      DrainConservation(Snapshot(), cache.Snapshot(), predict, eos, DUMMY_ROWS);
    }

    // An idle engine has memory for the next request: what is cached can then all be given back.
    lemma IdleHasMemory()
      requires Valid() && active == {}
      ensures !Starved()
    {
      hide Inv, Coherent, Counts, FreeListOf, Consistent, Mirrors, WellFormed, Catalog, Used, NothingFreeable;
      if NothingFreeable(cache.Snapshot()) {
        cache.FreeAndUsed();
        ForestShown();
        IdleUsesNothing(Snapshot(), cache.Snapshot(), predict, eos, aside);
      }
    }

    // With the cache switched off the scheduler keeps its promise: a decoding request that passed
    // the admission check can always have its turn, with the preemption of newer requests if need
    // be.
    lemma AlwaysServed(turn: Plan)
      requires Valid() && cache.maxBlocks == 0 && turn.id in active && turn.id in gens && gens[turn.id].phase.Decoding?
      requires Fits(gens[turn.id], EffectiveCapacity()) && |gens[turn.id].outputs| + turn.count <= gens[turn.id].maxNew
      ensures WouldServe(Snapshot(), turn)
    {
      hide Inv, Coherent, Counts, FreeListOf, Consistent, Mirrors, WellFormed, Catalog, WouldServe, Fits;
      NothingCached();
      TurnServedWithoutCache(Snapshot(), predict, eos, turn, aside, manager.allocator.numBlocks - reservedBlocks,
                             EffectiveCapacity());
    }

    lemma NothingCached()
      requires Valid() && cache.maxBlocks == 0
      ensures cache.Published() == map[] && forall o | o in manager.allocator.allocations :: o.Request?
    {
      hide Inv, Counts, FreeListOf, Consistent, Mirrors, Catalog;
      assert cache.references == map[];
      NoReferences(cache.Snapshot(), manager.allocator.blockSize);
    }

    // ---- clients ------------------------------------------------------------------------------

    // A new request joins the queue, unless it is malformed, too long, a duplicate, or the
    // queue is full.
    method Submit(id: string, prompt: seq<Token>, maxNew: nat, greedy: bool, stops: set<Token>, ignoreEos: bool,
                  created: nat)
      returns (r: Reply<bool>)
      requires Valid() && id !in reserved
      modifies this`gens, this`waiting
      ensures Valid() && !r.Exhausted? && (old(Steady()) ==> Steady())
      ensures r.Raised? <==> id == "" || prompt == [] || maxNew == 0 || id in active || id in old(waiting)
                             || (limits.maxModelLen > 0 && |prompt| + maxNew > limits.maxModelLen)
      ensures r.Raised? ==> gens == old(gens) && waiting == old(waiting)
      ensures r.Ok? ==> r.value == (limits.maxWaiting.None? || |old(waiting)| < limits.maxWaiting.value)
      ensures r.Ok? ==>
        && id in gens && gens == old(gens)[id := gens[id]]
        && gens[id].prompt == prompt && gens[id].maxNew == maxNew && gens[id].greedy == greedy
        && gens[id].stops == stops && gens[id].ignoreEos == ignoreEos && gens[id].created == created
        && gens[id].outputs == [] && gens[id].prefilled == 0 && !gens[id].recomputing && !gens[id].resuming
        && (if r.value then gens[id].phase.Waiting? else gens[id].phase.Rejected? && gens[id].reason.QueueFull?)
        && waiting == if r.value then old(waiting) + [id] else old(waiting)
    {
      hide Counts, FreeListOf, Coherent, Consistent, Mirrors, WellFormed, Catalog, RowOk, Placed, Inv, GenOk, Distinct,
           Timely, Brisk;
      if id == "" || prompt == [] || maxNew == 0 || id in active || id in waiting
         || (limits.maxModelLen > 0 && |prompt| + maxNew > limits.maxModelLen) {
        return Raised;
      }
      ghost var before := Snapshot();
      var g := Arriving(prompt, maxNew, greedy, stops, ignoreEos, created);
      ArrivingOk(prompt, maxNew, greedy, stops, ignoreEos, created, predict, eos);
      JoinsQueue(before, id, predict, eos);
      ArrivalIsSteady(before, id, g, waiting + [id], epoch);
      ArrivalIsSteady(before, id, g.(phase := Rejected, reason := QueueFull), waiting, epoch);
      if limits.maxWaiting.Some? && |waiting| >= limits.maxWaiting.value {
        QueueKeepsInv(before, id, g.(phase := Rejected, reason := QueueFull), waiting, predict, eos);
        gens := gens[id := g.(phase := Rejected, reason := QueueFull)];
        return Ok(false);
      }
      QueueKeepsInv(before, id, g, waiting + [id], predict, eos);
      gens, waiting := gens[id := g], waiting + [id];
      return Ok(true);
    }

    // Cancels queued or active work and gives its pages back.
    method Cancel(id: string) returns (r: Reply<()>)
      requires Valid()
      modifies this, manager, manager.allocator
      ensures Valid() && Evolves(old(gens), gens) && !r.Exhausted? && (old(Steady()) ==> Steady())
      ensures r.Raised? <==> id !in old(waiting) && id !in old(active)
      ensures r.Raised? ==> gens == old(gens) && waiting == old(waiting) && active == old(active)
      ensures r.Ok? ==> && id in old(gens)
                        && gens == old(gens)[id := old(gens)[id].(phase := Cancelled, reason := CancelledByClient)]
                        && active == old(active) - {id} && waiting == Dropped(old(waiting), id)
                        && epoch == old(epoch) + if id in old(active) then 1 else 0
      ensures forall x | x in old(active) && x != id ::
                x in old(KvStore()).tables && Undisturbed(old(KvStore()), KvStore(), x)
    {
      hide Counts, FreeListOf, Coherent, Consistent, Mirrors, WellFormed, Catalog, RowOk, Undisturbed, Inv, GenOk,
           InvBut, Released, Distinct, Dropped, Timely, Brisk;
      ghost var before := Snapshot();
      EvolvesSelf(gens);
      AllTables(before, predict, eos);
      if id in waiting {
        WaitingFacts(before, id, predict, eos);
        DroppedDistinct(waiting, id);
        CancelledOk(gens[id], predict, eos);
        QueueKeepsInv(before, id, gens[id].(phase := Cancelled, reason := CancelledByClient), Dropped(waiting, id),
                      predict, eos);
        gens, waiting := gens[id := gens[id].(phase := Cancelled, reason := CancelledByClient)], Dropped(waiting, id);
        DepartureIsSteady(before, Snapshot(), id, epoch, epoch);
        return Ok(());
      }
      if id !in active {
        return Raised;
      }
      ActiveRow(before, id, predict, eos);
      InvIsInvBut(before, id, predict, eos);
      CancelledOk(gens[id], predict, eos);
      NothingToDrop(waiting, id);
      Retire(id, Cancelled, CancelledByClient);
      DepartureIsSteady(before, Snapshot(), id, old(epoch), epoch);
      return Ok(());
    }
  }

  // Sets an engine up, unless a size, a budget or the draft depth is not positive, the queue is
  // bounded by zero, a draft does not fit a prefill chunk with its pending token, a graph is
  // wider than the engine, or the padded rows would take the whole pool. Without a proposer the
  // depth is checked all the same and then never used.
  method NewEngine(numBlocks: nat, blockSize: nat, cacheBlocks: nat, graphRows: nat, limits: Limits, proposer: bool,
                   eos: set<Token>, predict: seq<Slot> -> Token) returns (engine: Engine?)
    ensures engine == null <==>
      || numBlocks == 0 || blockSize == 0 || limits.maxActive == 0 || limits.chunk == 0 || limits.budget == 0
      || limits.depth == 0 || limits.depth + 1 > limits.chunk || limits.maxWaiting == Some(0)
      || graphRows > limits.maxActive || BlocksFor(graphRows, blockSize) >= numBlocks
    ensures engine != null ==>
      && fresh(engine) && fresh(engine.manager) && fresh(engine.manager.allocator) && fresh(engine.cache)
      && fresh(engine.pool) && fresh(engine.pool.cells)
      && engine.Steady() && engine.gens == map[] && engine.active == {} && engine.waiting == []
      && engine.predict == predict && engine.eos == eos
      && engine.limits == limits.(depth := if proposer then limits.depth else 0)
      && engine.manager.allocator.numBlocks == numBlocks && engine.manager.allocator.blockSize == blockSize
      && engine.cache.maxBlocks == cacheBlocks && engine.reservedBlocks == BlocksFor(graphRows, blockSize)
      && engine.reserved == if graphRows > 0 then {DUMMY_ROWS} else {}
  {
    if numBlocks == 0 || blockSize == 0 || limits.maxActive == 0 || limits.chunk == 0 || limits.budget == 0
       || limits.depth == 0 || limits.depth + 1 > limits.chunk || limits.maxWaiting == Some(0)
       || graphRows > limits.maxActive || BlocksFor(graphRows, blockSize) >= numBlocks {
      return null;
    }
    engine := new Engine(numBlocks, blockSize, cacheBlocks, graphRows,
                         limits.(depth := if proposer then limits.depth else 0), eos, predict);
  }

  // Whatever clients do and however the loop interleaves, every state the engine goes through
  // satisfies the invariant, and with it everything the invariant means: among others, each
  // finished greedy request got exactly what it would have got alone, for what was submitted.
  method Serve(engine: Engine, events: seq<Event>) returns (replies: seq<Reply<bool>>, ghost history: seq<Requests>)
    requires engine.Steady()
    requires forall e | e in events && e.Submission? :: e.id !in engine.reserved
    modifies engine, engine.manager, engine.manager.allocator, engine.cache, engine.pool.cells
    ensures engine.Steady()
    ensures Leads(old(engine.gens), history, events, replies, engine.gens, engine.Bounds())
    ensures AllAnswered(engine.gens, events, replies, ModelOf(engine.predict), engine.eos)
    ensures Faithful(engine.gens, engine.predict, engine.eos)
  {
    hide Inv, Coherent, Consistent, Counts, FreeListOf, Mirrors, WellFormed, Catalog, Evolves, Undisturbed, Faithful,
         Timely, Brisk, Leads, Taken, AllAnswered;
    replies, history := [], [engine.gens];
    ghost var bounds := engine.Bounds();
    assert Leads(engine.gens, history, [], replies, engine.gens, bounds) by { RunLeads(engine.gens, bounds); }
    for i := 0 to |events|
      invariant engine.Steady() && Leads(old(engine.gens), history, events[..i], replies, engine.gens, bounds)
    {
      assert events[i] in events && events[..i + 1] == events[..i] + [events[i]];
      ghost var turn := engine.gens;
      var r := Handle(engine, events[i]);
      LeadsOn(old(engine.gens), history, events[..i], replies, turn, bounds, events[i], r, engine.gens);
      replies, history := replies + [r], history + [engine.gens];
    }
    assert events[..|events|] == events;
    AllFaithful(engine.Snapshot(), engine.predict, engine.eos);
    RunAnswers(old(engine.gens), history, events, replies, bounds, engine.Snapshot(), engine.predict, engine.eos);
  }

  // One event.
  method Handle(engine: Engine, e: Event) returns (r: Reply<bool>)
    requires engine.Steady() && (e.Submission? ==> e.id !in engine.reserved)
    modifies engine, engine.manager, engine.manager.allocator, engine.cache, engine.pool.cells
    ensures engine.Steady() && Taken(old(engine.gens), e, r, engine.gens, engine.Bounds())
  {
    hide Inv, Coherent, Consistent, Counts, FreeListOf, Mirrors, WellFormed, Catalog, Evolves, Undisturbed, Timely,
         Brisk, Iterated, Turned, HeadHeld, Endings, FirstServed;
    ghost var before := engine.Snapshot();
    QueueIsCounted(before, engine.predict, engine.eos);
    match e
    case Submission(id, prompt, maxNew, greedy, stops, ignoreEos, created) =>
      r := engine.Submit(id, prompt, maxNew, greedy, stops, ignoreEos, created);
    case Cancellation(id) =>
      var done := engine.Cancel(id);
      r := if done.Raised? then Raised else Ok(true);
    case Iteration(offers) =>
      var ok;
      ghost var trail;
      ok, trail := engine.Step(offers);
      engine.CapacityMeans();
      IterationSeen(before, trail, engine.Snapshot(), engine.EffectiveCapacity(), engine.limits.chunk,
                    engine.limits.budget, engine.predict, engine.eos, engine.Bounds());
      r := Ok(true);
  }

  // And once nothing new arrives, finitely many iterations answer everybody: the loop ends, with
  // no request queued or active, whatever was preempted, parked or short of memory on the way.
  method Drain(engine: Engine)
    requires engine.Steady()
    modifies engine, engine.manager, engine.manager.allocator, engine.cache, engine.pool.cells
    ensures engine.Steady() && Evolves(old(engine.gens), engine.gens) && engine.gens.Keys == old(engine.gens).Keys
    ensures forall id | id in engine.gens :: !engine.gens[id].Live()
    ensures Endings(old(engine.gens), engine.gens, engine.Bounds().capacity)
    ensures Faithful(engine.gens, engine.predict, engine.eos)
  {
    hide Inv, Coherent, Consistent, Counts, FreeListOf, Mirrors, WellFormed, Catalog, Evolves, Undisturbed, Faithful,
         Timely, Brisk, Alive, Fresh, Units, Iterates, Iterated, Endings, FirstServed, Turned, HeadHeld;
    EvolvesSelf(engine.gens);
    NothingEnded(engine.gens, engine.Bounds());
    while engine.waiting != [] || engine.active != {}
      invariant engine.Steady() && Evolves(old(engine.gens), engine.gens)
      invariant engine.gens.Keys == old(engine.gens).Keys
      invariant Endings(old(engine.gens), engine.gens, engine.Bounds().capacity)
      decreases Alive(engine.Snapshot()), Fresh(engine.Snapshot(), engine.epoch), engine.active,
                Units(engine.Snapshot())
    {
      ghost var turn, before := engine.gens, engine.Snapshot();
      SomebodyAlive(engine.Snapshot(), engine.predict, engine.eos);
      var ok;
      ghost var trail;
      var offers: map<string, seq<Token>> := *;
      ok, trail := engine.Step(offers);
      EvolvesOn(old(engine.gens), turn, engine.gens);
      engine.CapacityMeans();
      IterationSeen(before, trail, engine.Snapshot(), engine.EffectiveCapacity(), engine.limits.chunk,
                    engine.limits.budget, engine.predict, engine.eos, engine.Bounds());
      IteratesKeys(turn, engine.gens, engine.Bounds());
      EndingsOn(old(engine.gens), turn, engine.gens, engine.Bounds().capacity);
    }
    NobodyAlive(engine.Snapshot(), engine.predict, engine.eos);
    DeadMeansDone(engine.Snapshot());
    AllFaithful(engine.Snapshot(), engine.predict, engine.eos);
  }
}
