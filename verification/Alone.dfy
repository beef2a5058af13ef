// A request that runs alone: when the scheduler's promise holds that an admitted request can then
// be served, and what stands in its way when it does not
// (engine/scheduler/scheduler.py, engine/cache/prefix.py, engine/batching/continuous_batching.py).
module Alone {
  import opened Common
  import opened Ownership
  import opened Paging
  import opened PrefixForest
  import opened Reclaiming
  import opened PrefixCaching
  import opened PagedStore
  import opened GreedyDecoding
  import opened Lifecycle
  import opened Arrival
  import opened Yielding
  import opened Prospects
  import opened CapacityFacts
  import opened Batching
  import opened Admission
  import opened Iterations

  // ---- without a prefix cache -------------------------------------------------------------

  // The reserved rows hold exactly these pages.
  ghost predicate HoldsAside(st: State, aside: seq<nat>) {
    forall r | r in st.reserved :: r in st.store.tables && st.store.tables[r].blocks == aside
  }

  // Nothing cached: alone, a request can get every page that is not set aside.
  lemma ServedWithoutCache(st: State, predict: seq<Slot> -> Token, eos: set<Token>, id: string, target: nat,
                           aside: seq<nat>)
    requires Inv(st, predict, eos) && id in st.active && HoldsAside(st, aside)
    requires st.store.catalog == map[] && forall o | o in st.store.owned :: o.Request?
    requires BlocksFor(target, st.store.size) + |aside| <= |st.store.pool|
    ensures Servable(st, id, target)
  {
    hide GenOk, RowOk, EntryHolds, CatalogHolds, CacheAlive, Exclusive, Holders;
    ActiveRow(st, id, predict, eos);
    TableFacts(st.store, predict, id);
    var s := Among(st.store, {id} + st.reserved);
    HeldAlone(st, predict, eos, id, aside);
    FewOutOfReach(s, s.tables[id].blocks, aside);
    if s.tables[id].length % s.size != 0 { SingleTail(s, id); }
  }

  // A decoding request that was admitted therefore always gets its tokens.
  lemma TurnServedWithoutCache(st: State, predict: seq<Slot> -> Token, eos: set<Token>, turn: Plan, aside: seq<nat>,
                               usable: nat, capacity: nat)
    requires Inv(st, predict, eos) && turn.id in st.active && HoldsAside(st, aside) && turn.id in st.gens
    requires st.store.catalog == map[] && forall o | o in st.store.owned :: o.Request?
    requires usable + |aside| == |st.store.pool| && capacity == usable * st.store.size
    requires Fits(st.gens[turn.id], capacity)
    requires st.gens[turn.id].phase.Decoding? && |st.gens[turn.id].outputs| + turn.count <= st.gens[turn.id].maxNew
    ensures WouldServe(st, turn)
  {
    hide GenOk, RowOk, Servable, Consistent, HoldsAside;
    ActiveRow(st, turn.id, predict, eos);
    var target := CommittedLength(st.gens[turn.id]) + turn.count;
    FitsInBlocks(target, usable, st.store.size);
    ServedWithoutCache(st, predict, eos, turn.id, target, aside);
  }

  lemma FitsInBlocks(target: nat, usable: nat, size: nat)
    requires size > 0 && target <= usable * size
    ensures BlocksFor(target, size) <= usable
  {
    if BlocksFor(target, size) > usable { RoomNeeded(target, usable, size); }
  }

  // Alone, the request shares its last block with nobody, and the pinned blocks are its own and
  // the ones set aside.
  lemma HeldAlone(st: State, predict: seq<Slot> -> Token, eos: set<Token>, id: string, aside: seq<nat>)
    requires Inv(st, predict, eos) && id in st.active && HoldsAside(st, aside)
    requires forall o | o in st.store.owned :: o.Request?
    ensures id in st.store.tables && st.store.tables[id].blocks != []
    ensures var owned := Among(st.store, {id} + st.reserved).owned;
            && Holders(owned, Last(st.store.tables[id].blocks)) == {Request(id)}
            && forall b: nat | Pinned(owned, b) :: b in st.store.tables[id].blocks || b in aside
  {
    hide GenOk, RowOk, EntryHolds, CatalogHolds, CacheAlive, Exclusive, Shaped, Among, Pinned;
    ActiveRow(st, id, predict, eos);
    TableFacts(st.store, predict, id);
    var owned, tail := Among(st.store, {id} + st.reserved).owned, Last(st.store.tables[id].blocks);
    KeptOwners(st.store, id, st.reserved);
    assert tail in owned[Request(id)] && Request(id) in Holders(st.store.owned, tail);
    forall r | r in st.reserved ensures r in st.store.tables && tail !in st.store.tables[r].blocks {
      DummyIsPrivate(st.store, r);
    }
    assert Holders(owned, tail) == {Request(id)};
    forall b: nat | Pinned(owned, b) ensures b in st.store.tables[id].blocks || b in aside {
      PinnedMeans(owned, b);
    }
  }

  lemma KeptOwners(s: Store, id: string, reserved: set<string>)
    requires Shaped(s) && id in s.tables && reserved <= s.tables.Keys
    requires forall o | o in s.owned :: o.Request?
    ensures var owned := Among(s, {id} + reserved).owned;
            && Request(id) in owned && Request(id) in s.owned && s.owned[Request(id)] == s.tables[id].blocks
            && forall o | o in owned ::
                 o.Request? && (o.id == id || o.id in reserved) && owned[o] == s.tables[o.id].blocks
  {
  }

  lemma FewOutOfReach(s: Store, own: seq<nat>, aside: seq<nat>)
    requires s.catalog == map[] && forall b: nat | Pinned(s.owned, b) :: b in own || b in aside
    ensures |s.pool| - |own| - |aside| <= Obtainable(s) && Obtainable(s) >= 0
  {
    SubsetSize(OutOfReach(s), Members(own) + Members(aside));
    AtMost(own);
    AtMost(aside);
    SubsetSize(OutOfReach(s), Below(|s.pool|));
  }

  lemma {:induction false} AtMost(s: seq<nat>)
    ensures |Members(s)| <= |s|
  {
    if s == [] {
      assert Members(s) == {};
    } else {
      AtMost(s[1..]);
      assert Members(s) == Members(s[1..]) + {s[0]};
    }
  }

  // A cache that counts no references is empty.
  lemma NoReferences(v: View, size: nat)
    requires Coherent(v, size) && v.references == map[] && forall o | o in v.owned :: v.owned[o] != []
    requires forall p | p in v.index :: v.index[p] in v.nodes
    ensures Catalog(v) == map[] && forall o | o in v.owned :: o.Request?
  {
    hide Forest, Stamped;
    forall b: nat ensures CacheHolders(v.owned, b) == {} {
      assert RefCount(v.references, b) == |CacheHolders(v.owned, b)|;
    }
    forall o | o in v.owned ensures o.Request? {
      assert o in CacheHolders(v.owned, v.owned[o][0]) <==> !o.Request?;
    }
    forall i ensures i !in v.nodes { assert i in v.nodes <==> Node(i) in v.owned; }
  }

  // ---- an idle engine ---------------------------------------------------------------------

  // Nobody active and nothing left to free: then only the pages set aside are in use.
  lemma IdleUsesNothing(st: State, v: View, predict: seq<Slot> -> Token, eos: set<Token>, aside: seq<nat>)
    requires Inv(st, predict, eos) && st.active == {} && Shows(st.store, v) && NothingFreeable(v)
    requires HoldsAside(st, aside)
    ensures |Used(st.store.owned, |st.store.pool|)| <= |aside|
  {
    hide GenOk, RowOk, EntryHolds, CatalogHolds, CacheAlive, Forest, Referenced, Stamped, Pinned, Holders, Stuck;
    assert forall item | Candidate(v, item) :: !Freeable(v, item) by {
      forall item | Candidate(v, item) ensures !Freeable(v, item) { assert !Evictable(v, item, true); }
    }
    forall b | b in Used(st.store.owned, |st.store.pool|) ensures b in aside {
      NothingLeftToFree(v, st.store.size, |st.store.pool|, b);
      if Pinned(v.owned, b) {
        PinnedAside(st, predict, eos, aside, b);
      } else {
        var i :| i in v.nodes && v.nodes[i].block == b && Stuck(v, i);
        StuckHasPin(v, i);
        var j :| j in v.nodes && Pinned(v.owned, v.nodes[j].block);
        PinnedAside(st, predict, eos, aside, v.nodes[j].block);
        NodeHolds(v, j);
        assert false;
      }
    }
    SubsetSize(Used(st.store.owned, |st.store.pool|), Members(aside));
    AtMost(aside);
  }

  lemma StuckHasPin(v: View, i: nat)
    requires Stuck(v, i)
    ensures exists j :: j in v.nodes && Pinned(v.owned, v.nodes[j].block)
  {
  }

  lemma NodeHolds(v: View, i: nat)
    requires Owns(v) && i in v.nodes
    ensures CacheHolders(v.owned, v.nodes[i].block) != {}
  {
    assert v.nodes[i].block in v.owned[Node(i)];
    assert Node(i) in CacheHolders(v.owned, v.nodes[i].block);
  }

  lemma PinnedAside(st: State, predict: seq<Slot> -> Token, eos: set<Token>, aside: seq<nat>, b: nat)
    requires Inv(st, predict, eos) && st.active == {} && Pinned(st.store.owned, b) && HoldsAside(st, aside)
    ensures b in aside && CacheHolders(st.store.owned, b) == {}
  {
    hide GenOk, RowOk, EntryHolds, CatalogHolds, CacheAlive, Exclusive;
    PinnedMeans(st.store.owned, b);
    var id :| Request(id) in st.store.owned && b in st.store.owned[Request(id)];
    assert id in st.store.tables && id in st.reserved;
    DummyIsPrivate(st.store, id);
  }

  // ---- with one ---------------------------------------------------------------------------

  // A request whose own exact entry shares its partly filled last block, on a pool it fills: the
  // entry is not worth evicting, because the request holds all its blocks, and there is no block
  // to copy the last one to. So it cannot write another token, even into the slots it has.
  lemma OwnEntryShares(st: State, predict: seq<Slot> -> Token, eos: set<Token>, id: string, entry: nat, target: nat)
    requires Inv(st, predict, eos) && id in st.active && id in st.store.tables
    requires Exact(entry) in st.store.owned && st.store.owned[Exact(entry)] == st.store.tables[id].blocks
    requires st.store.tables[id].length % st.store.size != 0 && target > st.store.tables[id].length
    requires Obtainable(Among(st.store, {id} + st.reserved)) <= 0
    ensures !Servable(st, id, target)
  {
    hide GenOk, RowOk, EntryHolds, CatalogHolds, CacheAlive, Exclusive, Obtainable, Holders, Pinned;
    ActiveRow(st, id, predict, eos);
    TableFacts(st.store, predict, id);
    var s, blocks := Among(st.store, {id} + st.reserved), st.store.tables[id].blocks;
    assert Exact(entry) in Holders(s.owned, Last(blocks)) by { InHolders(s.owned, Exact(entry), Last(blocks)); }
    forall b: nat | b in blocks ensures Pinned(s.owned, b) {
      PinnedMeans(s.owned, b);
      assert Request(id) in s.owned && b in s.owned[Request(id)];
    }
    assert !Droppable(s.owned, Exact(entry));
  }

  lemma InHolders(owned: Ledger, o: Owner, b: nat)
    requires o in owned && b in owned[o]
    ensures o in Holders(owned, b)
  {
  }
}
