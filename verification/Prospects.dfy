// When can a request get room? The exact condition on the store, and what keeps it
// (engine/batching/continuous_batching.py, `_ensure_writable_tail` and `_ensure_kv_capacity`,
// engine/cache/prefix.py, `evict_until_free`).
module Prospects {
  import opened Common
  import opened Ownership
  import opened Paging
  import opened PrefixForest
  import opened Reclaiming
  import opened PrefixCaching
  import opened PagedStore

  // ---- blocks within reach ----------------------------------------------------------------

  // A published prefix from which a published prefix on a page of some request goes on.
  ghost predicate Shielded(s: Store, p: seq<Token>) {
    p in s.catalog && exists q | q in s.catalog :: p <= q && Pinned(s.owned, s.catalog[q])
  }

  // Pressure eviction only drops leaves and exact entries, so it cannot free a page that a
  // request holds, nor the page of a shielded prefix.
  ghost predicate Beyond(s: Store, b: nat) {
    Pinned(s.owned, b) || exists p | p in s.catalog :: s.catalog[p] == b && Shielded(s, p)
  }

  ghost function OutOfReach(s: Store): set<nat> {
    set b: nat | 0 <= b < |s.pool| && Beyond(s, b)
  }

  // Blocks that are free or that eviction can free.
  ghost function Obtainable(s: Store): int { |s.pool| - |OutOfReach(s)| }

  // ---- the condition ----------------------------------------------------------------------

  // Blocks that the table lacks for `target` tokens.
  function Missing(s: Store, id: string, target: nat): nat
    requires id in s.tables && s.size > 0
  {
    var blocks := |s.tables[id].blocks|;
    if BlocksFor(target, s.size) > blocks then BlocksFor(target, s.size) - blocks else 0
  }

  // The store if the request gave its last block up.
  ghost function GivenUp(s: Store, id: string): Store
    requires id in s.tables && s.tables[id].blocks != []
  {
    var blocks := s.tables[id].blocks;
    s.(owned := s.owned[Request(id) := blocks[..|blocks| - 1]])
  }

  // Eviction can take every other owner off the last block.
  ghost predicate Loosens(s: Store, id: string)
    requires id in s.tables
  {
    forall o | o in Holders(s.owned, Last(s.tables[id].blocks)) && o != Request(id) :: Droppable(s.owned, o)
  }

  // The request can get room for `target` tokens without anybody giving way. With a partly
  // filled tail it must be able to own that tail alone: it takes one block more than it lacks,
  // counted as if the tail were given up, and either a block to copy it to or no sharer that
  // eviction cannot drop.
  ghost predicate Attainable(s: Store, id: string, target: nat)
    requires id in s.tables && s.tables[id].blocks != [] && s.size > 0
  {
    if target > s.tables[id].length && s.tables[id].length % s.size != 0
    then 1 + Missing(s, id, target) <= Obtainable(GivenUp(s, id)) && (Obtainable(s) > 0 || Loosens(s, id))
    else Missing(s, id, target) <= Obtainable(s)
  }

  // The store if only these requests were there.
  ghost function Among(s: Store, keep: set<string>): Store {
    s.(owned := map o | o in s.owned && (o.Request? ==> o.id in keep) :: s.owned[o])
  }

  // ---- pressure eviction ------------------------------------------------------------------

  // What pressure eviction does: droppable owners go, and shielded prefixes stay.
  ghost predicate Pressed(a: Store, b: Store) {
    && b.size == a.size && |b.pool| == |a.pool|
    && LedgerShrank(a.owned, b.owned) && SubCatalog(b.catalog, a.catalog)
    && (forall p | Shielded(a, p) :: p in b.catalog)
    && (forall o | o in a.owned && o !in b.owned :: Droppable(a.owned, o))
  }

  lemma ShieldedStays(a: Store, b: Store, p: seq<Token>)
    requires Pressed(a, b)
    ensures Shielded(a, p) <==> Shielded(b, p)
  {
    SamePins(a.owned, b.owned);
    if Shielded(a, p) {
      var q :| q in a.catalog && p <= q && Pinned(a.owned, a.catalog[q]);
      assert Shielded(a, q);
      assert q in b.catalog;
    }
    if Shielded(b, p) {
      var q :| q in b.catalog && p <= q && Pinned(b.owned, b.catalog[q]);
      assert q in a.catalog;
    }
  }

  lemma ReachStays(a: Store, b: Store)
    requires Pressed(a, b)
    ensures Obtainable(a) == Obtainable(b)
  {
    SamePins(a.owned, b.owned);
    forall p ensures Shielded(a, p) <==> Shielded(b, p) { ShieldedStays(a, b, p); }
    assert OutOfReach(a) == OutOfReach(b);
  }

  lemma PressedTwice(a: Store, b: Store, c: Store)
    requires Pressed(a, b) && Pressed(b, c)
    ensures Pressed(a, c)
  {
    hide Shielded;
    SamePins(a.owned, b.owned);
    forall p | Shielded(a, p) ensures p in c.catalog { ShieldedStays(a, b, p); }
  }

  lemma PressedSelf(s: Store)
    ensures Pressed(s, s)
  {
  }

  // Counting fewer requests, it is pressure eviction all the more.
  lemma PressedAmongFewer(a: Store, b: Store, v: Store, w: Store)
    requires Pressed(a, b) && v == a.(owned := v.owned) && w == b.(owned := w.owned)
    requires LedgerShrank(v.owned, w.owned)
    requires forall o: Owner | !o.Request? ::
               (o in v.owned <==> o in a.owned) && (o in v.owned ==> v.owned[o] == a.owned[o])
    requires forall o: Owner | !o.Request? :: o in w.owned <==> o in b.owned
    requires forall o: Owner | o.Request? && o in v.owned ::
               o in a.owned && forall y | y in v.owned[o] :: y in a.owned[o]
    ensures Pressed(v, w)
  {
    forall x: nat ensures Pinned(v.owned, x) ==> Pinned(a.owned, x) { FewerPins(a.owned, v.owned, x); }
    hide Pinned;
    forall p | Shielded(v, p) ensures p in w.catalog { assert Shielded(a, p); }
    forall o | o in v.owned && o !in w.owned ensures Droppable(v.owned, o) { assert Droppable(a.owned, o); }
  }

  lemma AmongPressed(a: Store, b: Store, keep: set<string>)
    requires Pressed(a, b)
    ensures Pressed(Among(a, keep), Among(b, keep))
  {
    PressedAmongFewer(a, b, Among(a, keep), Among(b, keep));
  }

  lemma GivenUpPressed(a: Store, b: Store, id: string)
    requires Pressed(a, b) && id in a.tables && id in b.tables && b.tables[id] == a.tables[id]
    requires a.tables[id].blocks != []
    requires Request(id) in a.owned && a.owned[Request(id)] == a.tables[id].blocks
    ensures Pressed(GivenUp(a, id), GivenUp(b, id))
  {
    PressedAmongFewer(a, b, GivenUp(a, id), GivenUp(b, id));
  }

  lemma LoosensStays(a: Store, b: Store, id: string)
    requires Pressed(a, b) && id in a.tables && id in b.tables && b.tables[id] == a.tables[id]
    ensures Loosens(a, id) <==> Loosens(b, id)
  {
    SamePins(a.owned, b.owned);
    var tail := Last(a.tables[id].blocks);
    if Loosens(a, id) {
      forall o | o in Holders(b.owned, tail) && o != Request(id) ensures Droppable(b.owned, o) {
        assert o in Holders(a.owned, tail) && Droppable(a.owned, o);
      }
    }
    if Loosens(b, id) {
      forall o | o in Holders(a.owned, tail) && o != Request(id) ensures Droppable(a.owned, o) {
        if o in b.owned { assert o in Holders(b.owned, tail); assert Droppable(b.owned, o); }
      }
    }
  }

  // Pressure eviction changes nobody's prospects.
  lemma AttainableStays(a: Store, b: Store, id: string, target: nat)
    requires Pressed(a, b) && id in a.tables && id in b.tables && b.tables[id] == a.tables[id]
    requires a.tables[id].blocks != [] && a.size > 0
    requires Request(id) in a.owned && a.owned[Request(id)] == a.tables[id].blocks
    ensures Attainable(a, id, target) <==> Attainable(b, id, target)
  {
    hide Pressed, Loosens, Obtainable;
    PressedSize(a, b);
    ReachStays(a, b);
    GivenUpPressed(a, b, id);
    ReachStays(GivenUp(a, id), GivenUp(b, id));
    LoosensStays(a, b, id);
  }

  lemma PressedSize(a: Store, b: Store)
    requires Pressed(a, b)
    ensures b.size == a.size
  {
  }

  // ---- copying the tail -------------------------------------------------------------------

  // Neither does a tail copy: the spare block it takes stands in for the tail it gives up.
  lemma CopyKeepsProspects(s: Store, w: Store, id: string, spare: nat, target: nat)
    requires id in s.tables && s.tables[id].blocks != [] && s.size > 0 && spare < |s.pool|
    requires target > s.tables[id].length && s.tables[id].length % s.size != 0
    requires CatalogHeld(s) && Holders(s.owned, spare) == {}
    requires Request(id) in s.owned && s.owned[Request(id)] == s.tables[id].blocks
    requires var t := s.tables[id].(blocks := WithLast(s.tables[id].blocks, spare));
             w == WithTable(s, id, t).(pool := w.pool) && |w.pool| == |s.pool|
    ensures Attainable(s, id, target) <==> Attainable(w, id, target)
  {
    var blocks := s.tables[id].blocks;
    assert w.tables[id].blocks[..|blocks| - 1] == blocks[..|blocks| - 1];
    assert GivenUp(w, id).owned == GivenUp(s, id).owned;
    SameReach(GivenUp(s, id), GivenUp(w, id));
    SpareIsObtainable(s, spare);
    forall o | o in w.owned && o != Request(id) ensures spare !in w.owned[o] {
      assert o in Holders(s.owned, spare) <==> spare in s.owned[o];
    }
    assert Loosens(w, id);
  }

  // Published pages have a holder.
  ghost predicate CatalogHeld(s: Store) {
    forall p | p in s.catalog :: CacheHolders(s.owned, s.catalog[p]) != {}
  }

  lemma SameReach(a: Store, b: Store)
    requires a.owned == b.owned && a.catalog == b.catalog && |a.pool| == |b.pool|
    ensures Obtainable(a) == Obtainable(b)
  {
    forall p ensures Shielded(a, p) <==> Shielded(b, p) { }
    assert OutOfReach(a) == OutOfReach(b);
  }

  lemma SpareIsObtainable(s: Store, spare: nat)
    requires spare < |s.pool| && CatalogHeld(s) && Holders(s.owned, spare) == {}
    ensures spare !in OutOfReach(s) && Obtainable(s) > 0
  {
    assert CacheHolders(s.owned, spare) <= Holders(s.owned, spare);
    ReachBound(s, spare);
  }

  lemma ReachBound(s: Store, spare: nat)
    requires spare < |s.pool| && spare !in OutOfReach(s)
    ensures Obtainable(s) > 0
  {
    SubsetSize(OutOfReach(s) + {spare}, Below(|s.pool|));
  }

  // A tail that nobody shares costs nothing: giving it up frees one block, taking it back uses it.
  lemma SingleTail(s: Store, id: string)
    requires id in s.tables && s.tables[id].blocks != [] && Distinct(s.tables[id].blocks)
    requires Request(id) in s.owned && s.owned[Request(id)] == s.tables[id].blocks
    requires Last(s.tables[id].blocks) < |s.pool| && Holders(s.owned, Last(s.tables[id].blocks)) == {Request(id)}
    requires CatalogHeld(s)
    ensures Loosens(s, id) && Obtainable(GivenUp(s, id)) == Obtainable(s) + 1
  {
    var blocks, tail, v := s.tables[id].blocks, Last(s.tables[id].blocks), GivenUp(s, id);
    assert blocks == blocks[..|blocks| - 1] + [tail] && tail !in blocks[..|blocks| - 1];
    forall o | o in v.owned ensures tail !in v.owned[o] {
      assert o in Holders(s.owned, tail) <==> tail in s.owned[o];
    }
    assert CacheHolders(s.owned, tail) <= Holders(s.owned, tail);
    assert forall p | p in s.catalog :: s.catalog[p] != tail;
    OtherPins(s, id);
    GivenUpReach(s, id);
  }

  lemma OtherPins(s: Store, id: string)
    requires id in s.tables && s.tables[id].blocks != []
    requires Request(id) in s.owned && s.owned[Request(id)] == s.tables[id].blocks
    ensures forall b: nat | b != Last(s.tables[id].blocks) :: Pinned(s.owned, b) == Pinned(GivenUp(s, id).owned, b)
  {
    var blocks, v := s.tables[id].blocks, GivenUp(s, id);
    assert blocks == blocks[..|blocks| - 1] + [Last(blocks)];
    forall b: nat | b != Last(blocks) ensures Pinned(s.owned, b) == Pinned(v.owned, b) {
      PinnedMeans(s.owned, b);
      PinnedMeans(v.owned, b);
      if x :| Request(x) in s.owned && b in s.owned[Request(x)] {
        assert Request(x) in v.owned && b in v.owned[Request(x)];
      }
      if x :| Request(x) in v.owned && b in v.owned[Request(x)] {
        assert Request(x) in s.owned && b in s.owned[Request(x)];
      }
    }
  }

  lemma GivenUpReach(s: Store, id: string)
    requires id in s.tables && s.tables[id].blocks != [] && Last(s.tables[id].blocks) < |s.pool|
    requires Request(id) in s.owned && s.owned[Request(id)] == s.tables[id].blocks
    requires forall o | o in GivenUp(s, id).owned :: Last(s.tables[id].blocks) !in GivenUp(s, id).owned[o]
    requires forall p | p in s.catalog :: s.catalog[p] != Last(s.tables[id].blocks)
    requires forall b: nat | b != Last(s.tables[id].blocks) :: Pinned(s.owned, b) == Pinned(GivenUp(s, id).owned, b)
    ensures Obtainable(GivenUp(s, id)) == Obtainable(s) + 1
  {
    var tail, v := Last(s.tables[id].blocks), GivenUp(s, id);
    PinnedMeans(s.owned, tail);
    PinnedMeans(v.owned, tail);
    assert tail in s.owned[Request(id)];
    hide Pinned;
    forall p ensures Shielded(s, p) <==> Shielded(v, p) { }
    assert OutOfReach(s) == OutOfReach(v) + {tail} && tail !in OutOfReach(v);
  }

  // ---- fewer requests, smaller targets ----------------------------------------------------

  // Without the other requests the prospects can only improve.
  lemma AttainableAmong(s: Store, keep: set<string>, id: string, target: nat)
    requires id in s.tables && s.tables[id].blocks != [] && s.size > 0 && id in keep
    requires Attainable(s, id, target)
    ensures Attainable(Among(s, keep), id, target)
  {
    var v := Among(s, keep);
    ReachGrows(s, v);
    assert v.owned[Request(id) := s.tables[id].blocks[..|s.tables[id].blocks| - 1]] == GivenUp(v, id).owned;
    ReachGrows(GivenUp(s, id), GivenUp(v, id));
    if Loosens(s, id) { LoosensAmong(s, keep, id); }
  }

  lemma ReachGrows(s: Store, v: Store)
    requires v == s.(owned := v.owned)
    requires forall o: Owner | o.Request? && o in v.owned ::
               o in s.owned && forall y | y in v.owned[o] :: y in s.owned[o]
    ensures Obtainable(s) <= Obtainable(v)
  {
    forall x: nat ensures Pinned(v.owned, x) ==> Pinned(s.owned, x) { FewerPins(s.owned, v.owned, x); }
    hide Pinned;
    forall p | Shielded(v, p) ensures Shielded(s, p) { }
    SubsetSize(OutOfReach(v), OutOfReach(s));
  }

  lemma LoosensAmong(s: Store, keep: set<string>, id: string)
    requires id in s.tables && Loosens(s, id)
    ensures Loosens(Among(s, keep), id)
  {
    var v := Among(s, keep);
    forall x: nat ensures Pinned(v.owned, x) ==> Pinned(s.owned, x) { FewerPins(s.owned, v.owned, x); }
    hide Pinned;
    forall o | o in Holders(v.owned, Last(s.tables[id].blocks)) && o != Request(id) ensures Droppable(v.owned, o) {
      assert o in Holders(s.owned, Last(s.tables[id].blocks));
      assert Droppable(s.owned, o);
    }
  }

  // Less is easier.
  lemma AttainableForLess(s: Store, id: string, less: nat, target: nat)
    requires id in s.tables && s.tables[id].blocks != [] && s.size > 0
    requires s.tables[id].length < less <= target && Attainable(s, id, target)
    ensures Attainable(s, id, less)
  {
    hide Loosens, Obtainable;
    BlocksMonotone(less, target, s.size);
  }

  // With nobody else there, the store among the remaining requests is the store itself.
  lemma AmongAll(s: Store, keep: set<string>)
    requires forall id | Request(id) in s.owned :: id in keep
    ensures Among(s, keep) == s
  {
    assert Among(s, keep).owned == s.owned;
  }

  // ---- the forest seen as a catalogue -----------------------------------------------------

  // The store's cache is this forest.
  ghost predicate Shows(s: Store, v: View) {
    && s.size > 0 && Coherent(v, s.size) && s.owned == v.owned && s.exact == v.exact
    && (forall p | p in v.index :: v.index[p] in v.nodes) && s.catalog == Catalog(v)
  }

  lemma {:induction false} PathLength(v: View, size: nat, i: nat) returns (k: nat)
    requires Forest(v, size) && i in v.nodes
    ensures k > 0 && |v.paths[i]| == k * size
    decreases i
  {
    assert NodeOk(v, size, i);
    if v.nodes[i].parent.None? {
      k := 1;
    } else {
      var above := PathLength(v, size, v.nodes[i].parent.value);
      k := above + 1;
      assert k * size == above * size + size;
    }
  }

  lemma PathsApart(v: View, size: nat, i: nat, j: nat)
    requires Forest(v, size) && i in v.nodes && j in v.nodes && v.paths[i] == v.paths[j]
    ensures i == j
  {
    assert NodeOk(v, size, i) && NodeOk(v, size, j);
  }

  // Being above a node is spelling a prefix of its path.
  lemma {:induction false} AboveIsPrefix(v: View, size: nat, i: nat, j: nat)
    requires Forest(v, size) && size > 0 && i in v.nodes && j in v.nodes
    ensures Above(v, i, j) <==> v.paths[i] <= v.paths[j]
    decreases j
  {
    hide Forest;
    NodeFacts(v, size, j);
    if i != j {
      var mine := PathLength(v, size, i);
      if v.nodes[j].parent.Some? {
        var p := v.nodes[j].parent.value;
        AboveIsPrefix(v, size, i, p);
        assert v.paths[j][..|v.paths[p]|] == v.paths[p];
        if v.paths[i] == v.paths[j] { PathsApart(v, size, i, j); }
        if v.paths[i] < v.paths[j] {
          var theirs := PathLength(v, size, p);
          assert (theirs + 1) * size == theirs * size + size;
          MulLess(mine, theirs + 1, size);
          MulMono(mine, theirs, size);
          assert v.paths[i] == v.paths[j][..|v.paths[i]|] == v.paths[p][..|v.paths[i]|];
        }
      } else {
        MulMono(1, mine, size);
        if v.paths[i] <= v.paths[j] { PathsApart(v, size, i, j); }
      }
    }
  }

  lemma NodeFacts(v: View, size: nat, j: nat)
    requires Forest(v, size) && j in v.nodes
    ensures v.paths.Keys == v.nodes.Keys && |v.nodes[j].tokens| == size
    ensures var parent := v.nodes[j].parent;
            && (parent.Some? ==>
                  && parent.value in v.nodes && parent.value < j
                  && v.paths[j] == v.paths[parent.value] + v.nodes[j].tokens)
            && (parent.None? ==> v.paths[j] == v.nodes[j].tokens)
    ensures v.paths[j] in v.index && v.index[v.paths[j]] == j
  {
    assert NodeOk(v, size, j);
  }

  // So what the forest keeps out of reach and what the catalogue shields is the same.
  lemma StuckIsShielded(s: Store, v: View, i: nat)
    requires Shows(s, v) && i in v.nodes
    ensures v.paths.Keys == v.nodes.Keys && (Stuck(v, i) <==> Shielded(s, v.paths[i]))
  {
    hide Owns, Referenced, Stamped, Pinned, Above;
    ShownNode(s, v, i);
    if Stuck(v, i) {
      var j :| j in v.nodes && Above(v, i, j) && Pinned(v.owned, v.nodes[j].block);
      AboveIsPrefix(v, s.size, i, j);
      ShownNode(s, v, j);
    }
    if Shielded(s, v.paths[i]) {
      var q :| q in s.catalog && v.paths[i] <= q && Pinned(s.owned, s.catalog[q]);
      AboveIsPrefix(v, s.size, i, v.index[q]);
    }
  }

  lemma ShownNode(s: Store, v: View, i: nat)
    requires Shows(s, v) && i in v.nodes
    ensures v.paths.Keys == v.nodes.Keys && v.paths[i] in s.catalog && s.catalog[v.paths[i]] == v.nodes[i].block
    ensures forall p | p in s.catalog ::
              && p in v.index && v.index[p] in v.nodes && v.paths[v.index[p]] == p
              && s.catalog[p] == v.nodes[v.index[p]].block
  {
    NodeFacts(v, s.size, i);
  }

  lemma ReachShown(s: Store, v: View)
    requires Shows(s, v)
    ensures Unreclaimable(v, |s.pool|) == OutOfReach(s)
  {
    hide Owns, Referenced, Stamped, Pinned, Stuck, Shielded;
    CoherentFacts(v, s.size);
    forall b: nat ensures HeldByStuckNode(v, b) <==> exists p | p in s.catalog :: s.catalog[p] == b && Shielded(s, p) {
      if HeldByStuckNode(v, b) {
        var i :| i in v.nodes && v.nodes[i].block == b && Stuck(v, i);
        StuckIsShielded(s, v, i);
        ShownNode(s, v, i);
      }
      if p :| p in s.catalog && s.catalog[p] == b && Shielded(s, p) {
        ShownNode(s, v, v.index[p]);
        StuckIsShielded(s, v, v.index[p]);
      }
    }
  }

  lemma PressureShown(s: Store, v: View, w: Store, u: View)
    requires Shows(s, v) && Shows(w, u) && w.size == s.size && |w.pool| == |s.pool|
    requires PressureOnly(v, u) && Shrinks(v, u)
    ensures Pressed(s, w)
  {
    hide Coherent, Stuck, Pinned, Stamps, Shielded, Droppable;
    forall p | Shielded(s, p) ensures p in w.catalog { ShieldedStaysPublished(s, v, w, u, p); }
    hide PressureOnly;
  }

  lemma ShieldedStaysPublished(s: Store, v: View, w: Store, u: View, p: seq<Token>)
    requires Shows(s, v) && Shows(w, u) && w.size == s.size && PressureOnly(v, u) && Shielded(s, p)
    ensures p in w.catalog
  {
    hide Coherent, Stuck, Pinned, Droppable, LedgerShrank;
    assert p in v.index && v.index[p] in v.nodes;
    var i := v.index[p];
    ShownNode(s, v, i);
    StuckIsShielded(s, v, i);
    ShownNode(w, u, i);
  }

  // ---- one request looks for room -----------------------------------------------------------

  // Counting only these requests, this one could get room.
  ghost predicate Gets(s: Store, keep: set<string>, id: string, target: nat) {
    id in s.tables && s.tables[id].blocks != [] && s.size > 0 && Attainable(Among(s, keep), id, target)
  }

  // The request's own search, so far, decided nothing: whoever else is counted, its prospects
  // are what they were.
  ghost predicate SameProspects(a: Store, b: Store, id: string) {
    && id in a.tables && id in b.tables && b.tables[id].length == a.tables[id].length
    && forall keep: set<string>, target: nat | id in keep && target > a.tables[id].length ::
         Gets(a, keep, id, target) <==> Gets(b, keep, id, target)
  }

  // To everybody else it was nothing but pressure eviction.
  ghost predicate OthersPressed(a: Store, b: Store, ids: set<string>) {
    forall keep: set<string> | keep !! ids :: Pressed(Among(a, keep), Among(b, keep))
  }

  lemma OthersPressedTwice(a: Store, b: Store, c: Store, ids: set<string>)
    requires OthersPressed(a, b, ids) && OthersPressed(b, c, ids)
    ensures OthersPressed(a, c, ids)
  {
    hide Pressed;
    forall keep: set<string> | keep !! ids ensures Pressed(Among(a, keep), Among(c, keep)) {
      PressedTwice(Among(a, keep), Among(b, keep), Among(c, keep));
    }
  }

  lemma SameProspectsTwice(a: Store, b: Store, c: Store, id: string)
    requires SameProspects(a, b, id) && SameProspects(b, c, id)
    ensures SameProspects(a, c, id)
  {
    hide Gets;
  }

  lemma PressedOthers(a: Store, b: Store, ids: set<string>)
    requires Pressed(a, b)
    ensures OthersPressed(a, b, ids)
  {
    hide Pressed;
    forall keep: set<string> | keep !! ids ensures Pressed(Among(a, keep), Among(b, keep)) { AmongPressed(a, b, keep); }
  }

  lemma PressedProspects(a: Store, b: Store, id: string)
    requires Pressed(a, b) && Shaped(a) && id in a.tables && b.tables == a.tables && a.tables[id].blocks != []
    ensures SameProspects(a, b, id)
  {
    hide Pressed, Attainable;
    PressedSize(a, b);
    forall keep: set<string>, target: nat | id in keep
      ensures Gets(a, keep, id, target) <==> Gets(b, keep, id, target)
    {
      AmongPressed(a, b, keep);
      AttainableStays(Among(a, keep), Among(b, keep), id, target);
    }
  }

  // A change of one request's holdings.
  lemma OwnChange(a: Store, b: Store, id: string)
    requires b.size == a.size && |b.pool| == |a.pool| && b.catalog == a.catalog
    requires forall o | o != Request(id) ::
               (o in a.owned <==> o in b.owned) && (o in a.owned ==> b.owned[o] == a.owned[o])
    ensures OthersPressed(a, b, {id})
  {
    forall keep: set<string> | keep !! {id} ensures Pressed(Among(a, keep), Among(b, keep)) {
      assert id !in keep;
      assert Among(a, keep).owned == Among(b, keep).owned;
      PressedAlike(Among(a, keep), Among(b, keep));
    }
  }

  lemma PressedAlike(a: Store, b: Store)
    requires b.size == a.size && |b.pool| == |a.pool| && b.catalog == a.catalog && b.owned == a.owned
    ensures Pressed(a, b)
  {
  }

  lemma SelfProspects(s: Store, id: string)
    requires id in s.tables
    ensures SameProspects(s, s, id) && OthersPressed(s, s, {id})
  {
    hide Pressed, Gets;
    forall keep: set<string> ensures Pressed(Among(s, keep), Among(s, keep)) { PressedSelf(Among(s, keep)); }
  }

  // The tail copy as the engine makes it.
  lemma CopiedProspects(s: Store, w: Store, id: string, spare: nat)
    requires Shaped(s) && CacheAlive(s) && id in s.tables && s.tables[id].blocks != []
    requires s.tables[id].length % s.size != 0 && spare < |s.pool| && Holders(s.owned, spare) == {}
    requires w == WithTable(s, id, s.tables[id].(blocks := WithLast(s.tables[id].blocks, spare))).(pool := w.pool)
    requires |w.pool| == |s.pool|
    ensures SameProspects(s, w, id) && OthersPressed(s, w, {id})
  {
    hide Attainable, Pressed, WellFormed;
    OwnChange(s, w, id);
    forall keep: set<string>, target: nat | id in keep && target > s.tables[id].length
      ensures Gets(s, keep, id, target) <==> Gets(w, keep, id, target)
    {
      var v := Among(s, keep);
      AmongCatalog(s, keep);
      assert Among(w, keep).owned == WithTable(v, id, w.tables[id]).owned;
      forall o | o in v.owned ensures spare !in v.owned[o] {
        assert o in Holders(s.owned, spare) <==> spare in s.owned[o];
      }
      CopyKeepsProspects(v, Among(w, keep), id, spare, target);
    }
  }

  lemma AmongCatalog(s: Store, keep: set<string>)
    requires CacheAlive(s)
    ensures CatalogHeld(Among(s, keep))
  {
    forall p | p in s.catalog ensures CacheHolders(Among(s, keep).owned, s.catalog[p]) != {} {
      var o :| o in CacheHolders(s.owned, s.catalog[p]);
      assert o in CacheHolders(Among(s, keep).owned, s.catalog[p]);
    }
  }

  // With a tail of its own, or none to share, a request needs just the blocks it lacks.
  lemma SettledTail(s: Store, id: string, target: nat)
    requires Shaped(s) && CacheAlive(s) && id in s.tables && s.tables[id].blocks != []
    requires s.tables[id].length % s.size == 0 || Holders(s.owned, Last(s.tables[id].blocks)) == {Request(id)}
    ensures Attainable(s, id, target) <==> Missing(s, id, target) <= Obtainable(s)
  {
    if s.tables[id].length % s.size != 0 {
      TablePagesInPool(s, id);
      SingleTail(s, id);
    }
  }

  // Nothing freeable is left and a sharer still is: the tail cannot be had.
  lemma SharedForGood(s: Store, v: View, id: string, target: nat)
    requires Shows(s, v) && NothingFreeable(v) && id in s.tables && s.tables[id].blocks != []
    requires Request(id) in s.owned && s.owned[Request(id)] == s.tables[id].blocks
    requires |Holders(s.owned, Last(s.tables[id].blocks))| > 1 && Obtainable(s) <= 0
    requires s.tables[id].length % s.size != 0 && target > s.tables[id].length
    ensures !Attainable(s, id, target)
  {
    hide Forest, Referenced, Stamped, Pinned;
    var tail := Last(s.tables[id].blocks);
    if Loosens(s, id) {
      AnotherHolder(Holders(s.owned, tail), Request(id));
      var o :| o in Holders(s.owned, tail) && o != Request(id);
      HeldOwner(s, v, id, o);
    }
  }

  lemma AnotherHolder(holders: set<Owner>, o: Owner)
    requires |holders| > 1
    ensures exists x :: x in holders && x != o
  {
    if forall x | x in holders :: x == o { SubsetSize(holders, {o}); }
  }

  // A droppable owner of a request's tail is an exact entry, and a freeable one.
  lemma HeldOwner(s: Store, v: View, id: string, o: Owner)
    requires Shows(s, v) && id in s.tables && s.tables[id].blocks != []
    requires Request(id) in s.owned && s.owned[Request(id)] == s.tables[id].blocks
    requires o in Holders(s.owned, Last(s.tables[id].blocks)) && Droppable(s.owned, o)
    ensures exists item :: Evictable(v, item, true)
  {
    hide Forest, Referenced, Stamped;
    var tail := Last(s.tables[id].blocks);
    assert tail in s.owned[Request(id)];
    PinnedMeans(s.owned, tail);
    hide Pinned;
    if o.Exact? {
      assert o.entry in EntryIds(v.exact);
      var key :| key in v.exact && v.exact[key].entry == o.entry;
      assert ItemBlocks(v, ExactItem(key)) == s.owned[o];
      assert Evictable(v, ExactItem(key), true);
    }
  }
}
