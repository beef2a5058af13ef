// The shared, copy-on-write, evicting KV store as a value: allocator ledger, block tables,
// prefix cache and pool contents together. Each elementary change is shown to keep the store
// consistent and to leave every other request's private sequence alone.
module PagedStore {
  import opened Common
  import opened Ownership
  import opened Paging
  import opened PrefixForest
  import opened PrefixCaching

  // What a pool slot holds. A written slot records exactly what the forward pass attended to
  // and which token it encoded, so two slots are equal only if they agree under every model.
  datatype Slot = Blank | Cell(past: seq<Slot>, token: Token)

  type Pool = Pages<Slot>

  // The K/V run of a token sequence computed in isolation.
  function KvOf(tokens: seq<Token>): (r: seq<Slot>)
    ensures |r| == |tokens|
  {
    if tokens == [] then []
    else
      var past := KvOf(tokens[..|tokens| - 1]);
      past + [Cell(past, tokens[|tokens| - 1])]
  }

  lemma {:induction false} KvOfPrefix(tokens: seq<Token>, k: nat)
    requires k <= |tokens|
    ensures KvOf(tokens)[..k] == KvOf(tokens[..k])
    decreases |tokens|
  {
    if k == |tokens| {
      assert tokens[..k] == tokens;
    } else {
      var shorter := tokens[..|tokens| - 1];
      KvOfPrefix(shorter, k);
      assert shorter[..k] == tokens[..k];
      assert KvOf(tokens)[..k] == KvOf(shorter)[..k];
    }
  }

  datatype Store = Store(
    size: nat, owned: Ledger, tables: map<string, Table>, catalog: map<seq<Token>, nat>, exact: Entries, pool: Pool)

  ghost predicate Shaped(s: Store) {
    && s.size > 0
    && Mirrors(s.owned, s.tables, s.size)
    && WellFormed(s.owned, |s.pool|)
    && forall b | 0 <= b < |s.pool| :: |s.pool[b]| == s.size
  }

  // Cached blocks are alive and owned by the cache.
  ghost predicate CacheAlive(s: Store) {
    && (forall p | p in s.catalog :: s.catalog[p] < |s.pool| && CacheHolders(s.owned, s.catalog[p]) != {})
    && (forall key, b | key in s.exact && b in s.exact[key].blocks ::
          b < |s.pool| && CacheHolders(s.owned, b) != {})
  }

  // The last page of a token sequence's K/V run.
  ghost function LastPage(p: seq<Token>, size: nat): seq<Slot>
    requires size <= |p|
  {
    KvOf(p)[|p| - size..]
  }

  // Every published prefix ends in a page that holds its last `size` vectors.
  ghost predicate CatalogHolds(s: Store) {
    forall p | p in s.catalog ::
      s.size <= |p| && s.catalog[p] < |s.pool| && s.pool[s.catalog[p]] == LastPage(p, s.size)
  }

  ghost predicate EntryHolds(s: Store, key: seq<Token>, predict: seq<Slot> -> Token)
    requires key in s.exact
  {
    var entry := s.exact[key];
    && key != [] && Distinct(entry.blocks) && |entry.blocks| == BlocksFor(|key|, if s.size > 0 then s.size else 1)
    && Stored(s.pool, s.size, entry.blocks, KvOf(key))
    && entry.nextToken == predict(KvOf(key))
  }

  // A request's block with room for more tokens is its own, unless it is the partly filled
  // last block of a shared prompt.
  ghost predicate Exclusive(s: Store, id: string)
    requires id in s.tables
  {
    var t := s.tables[id];
    forall k | 0 <= k < |t.blocks| && (k + 1) * s.size > t.length ::
      Private(s.owned, id, t.blocks[k]) || (k == |t.blocks| - 1 && k * s.size < t.length)
  }

  ghost predicate Consistent(s: Store, predict: seq<Slot> -> Token) {
    && Shaped(s) && CacheAlive(s) && CatalogHolds(s)
    && (forall key | key in s.exact :: EntryHolds(s, key, predict))
    && (forall id | id in s.tables :: Exclusive(s, id))
  }

  // Every block with room for more tokens belongs to the request alone.
  ghost predicate AllPrivate(s: Store, id: string)
    requires id in s.tables
  {
    var t := s.tables[id];
    forall k | 0 <= k < |t.blocks| && (k + 1) * s.size > t.length :: Private(s.owned, id, t.blocks[k])
  }

  // The request may write up to `target` tokens without touching anybody else's memory.
  ghost predicate WriteReady(s: Store, id: string, target: nat) {
    && id in s.tables
    && target <= s.tables[id].Capacity(s.size)
    && (target > s.tables[id].length ==> AllPrivate(s, id))
  }

  // A request that did not take part in a change: same table, same pages, same exclusivity.
  ghost predicate Undisturbed(a: Store, b: Store, id: string) {
    && a.size == b.size && id in a.tables && id in b.tables && b.tables[id] == a.tables[id]
    && (forall k | 0 <= k < |a.tables[id].blocks| ::
          var page := a.tables[id].blocks[k];
          page < |a.pool| && page < |b.pool| && b.pool[page] == a.pool[page])
    && (AllPrivate(a, id) ==> AllPrivate(b, id))
  }

  lemma UndisturbedTransitive(a: Store, b: Store, c: Store, id: string)
    requires Undisturbed(a, b, id) && Undisturbed(b, c, id)
    ensures Undisturbed(a, c, id)
  {
  }

  lemma UndisturbedKeeps(a: Store, b: Store, id: string, values: seq<Slot>, target: nat)
    requires Undisturbed(a, b, id)
    ensures Stored(a.pool, a.size, a.tables[id].blocks, values) ==> Stored(b.pool, b.size, b.tables[id].blocks, values)
    ensures WriteReady(a, id, target) ==> WriteReady(b, id, target)
  {
  }

  // ---- elementary changes -----------------------------------------------------------------

  // Nobody's private block is free or cached.
  lemma PrivateIsElsewhere(owned: Ledger, id: string, b: nat)
    requires Private(owned, id, b)
    ensures Holders(owned, b) != {} && CacheHolders(owned, b) == {}
    ensures Request(id) in owned && b in owned[Request(id)]
    ensures forall o | o in owned && o != Request(id) :: b !in owned[o]
  {
    assert Request(id) in Holders(owned, b);
    forall o | o in owned && o != Request(id) ensures b !in owned[o] { assert o !in Holders(owned, b); }
    assert CacheHolders(owned, b) <= Holders(owned, b);
  }

  // Giving an owner other blocks does not touch a block it neither had nor gets.
  lemma HoldersElsewhere(owned: Ledger, o: Owner, blocks: seq<nat>, b: nat)
    requires o in owned ==> b !in owned[o]
    requires b !in blocks
    ensures Holders(owned[o := blocks], b) == Holders(owned, b)
  {
  }

  lemma CacheHoldersOf(owned: Ledger, id: string, blocks: seq<nat>, b: nat)
    ensures CacheHolders(owned[Request(id) := blocks], b) == CacheHolders(owned, b)
    ensures CacheHolders(owned - {Request(id)}, b) == CacheHolders(owned, b)
  {
  }

  ghost function WithTable(s: Store, id: string, t: Table): Store {
    s.(owned := s.owned[Request(id) := t.blocks], tables := s.tables[id := t])
  }

  // A table replaced or added; pages somebody holds keep their contents, and the blocks the
  // table gains were free or cached.
  ghost predicate TableChange(s: Store, w: Store, id: string, t: Table) {
    && w.owned == s.owned[Request(id) := t.blocks] && w.tables == s.tables[id := t]
    && w.size == s.size && w.catalog == s.catalog && w.exact == s.exact
    && t.blocks != [] && Distinct(t.blocks) && t.length <= t.Capacity(s.size)
    && (forall b: nat | b in t.blocks :: b < |s.pool|)
    && (forall b: nat | b in t.blocks && (id in s.tables ==> b !in s.tables[id].blocks) ::
          Holders(s.owned, b) == {} || CacheHolders(s.owned, b) != {})
    && PoolFollows(s, w)
  }

  ghost predicate PoolFollows(s: Store, w: Store) {
    && |w.pool| == |s.pool|
    && (forall b | 0 <= b < |w.pool| :: |w.pool[b]| == s.size)
    && (forall b | 0 <= b < |w.pool| && Holders(s.owned, b) != {} :: w.pool[b] == s.pool[b])
  }

  lemma TablePagesInPool(s: Store, id: string)
    requires Shaped(s) && id in s.tables
    ensures s.tables[id].blocks != [] && Distinct(s.tables[id].blocks)
    ensures forall b: nat | b in s.tables[id].blocks ::
              b < |s.pool| && |s.pool[b]| == s.size && Holders(s.owned, b) != {}
    ensures forall k | 0 <= k < |s.tables[id].blocks| :: s.tables[id].blocks[k] in s.tables[id].blocks
  {
    forall b: nat | b in s.tables[id].blocks
      ensures b < |s.pool| && |s.pool[b]| == s.size && Holders(s.owned, b) != {}
    {
      assert b in s.owned[Request(id)] && Request(id) in Holders(s.owned, b);
    }
  }

  // A private block of another request is not among the blocks a table gains.
  lemma OthersStayPrivate(s: Store, w: Store, id: string, t: Table, other: string, b: nat)
    requires Shaped(s) && TableChange(s, w, id, t) && other != id && Private(s.owned, other, b)
    ensures Private(w.owned, other, b)
  {
    PrivateIsElsewhere(s.owned, other, b);
    HoldersElsewhere(s.owned, Request(id), t.blocks, b);
  }

  lemma TableChangeUndisturbs(s: Store, w: Store, id: string, t: Table, other: string)
    requires Shaped(s) && TableChange(s, w, id, t) && other in s.tables && other != id
    ensures Undisturbed(s, w, other)
    ensures Exclusive(s, other) ==> Exclusive(w, other)
  {
    hide TableChange, Shaped, Private;
    TablePagesInPool(s, other);
    forall k | 0 <= k < |s.tables[other].blocks| && Private(s.owned, other, s.tables[other].blocks[k])
      ensures Private(w.owned, other, s.tables[other].blocks[k])
    {
      OthersStayPrivate(s, w, id, t, other, s.tables[other].blocks[k]);
    }
    TableChangeFrame(s, w, id, t, other);
  }

  lemma TableChangeFrame(s: Store, w: Store, id: string, t: Table, other: string)
    requires TableChange(s, w, id, t) && other in s.tables && other != id
    ensures w.size == s.size && other in w.tables && w.tables[other] == s.tables[other]
    ensures forall b | 0 <= b < |w.pool| && Holders(s.owned, b) != {} :: w.pool[b] == s.pool[b]
    ensures |w.pool| == |s.pool|
  {
  }

  lemma TableChangeShaped(s: Store, w: Store, id: string, t: Table)
    requires Shaped(s) && TableChange(s, w, id, t)
    ensures Shaped(w)
  {
  }

  // Cached pages are held, so they keep their contents; cache owners are untouched.
  lemma TableChangeCache(s: Store, w: Store, id: string, t: Table)
    requires CacheAlive(s) && CatalogHolds(s) && TableChange(s, w, id, t)
    ensures CacheAlive(w) && CatalogHolds(w)
    ensures forall b: nat | b < |s.pool| && CacheHolders(s.owned, b) != {} :: w.pool[b] == s.pool[b]
  {
    forall b ensures CacheHolders(w.owned, b) == CacheHolders(s.owned, b) { CacheHoldersOf(s.owned, id, t.blocks, b); }
    forall b: nat | b < |s.pool| && CacheHolders(s.owned, b) != {} ensures w.pool[b] == s.pool[b] {
      assert CacheHolders(s.owned, b) <= Holders(s.owned, b);
    }
  }

  lemma EntryFollows(s: Store, w: Store, key: seq<Token>, predict: seq<Slot> -> Token)
    requires key in s.exact && EntryHolds(s, key, predict) && CacheAlive(s)
    requires key in w.exact && w.exact[key] == s.exact[key] && w.size == s.size && |w.pool| == |s.pool|
    requires forall b: nat | b < |s.pool| && CacheHolders(s.owned, b) != {} :: w.pool[b] == s.pool[b]
    ensures EntryHolds(w, key, predict)
  {
    assert forall k | 0 <= k < |s.exact[key].blocks| :: s.exact[key].blocks[k] in s.exact[key].blocks;
  }

  // Any such change keeps the store consistent if the changed table keeps its own exclusivity.
  lemma TableChangeKeeps(s: Store, w: Store, id: string, t: Table, predict: seq<Slot> -> Token)
    requires Consistent(s, predict) && TableChange(s, w, id, t) && id in w.tables && Exclusive(w, id)
    ensures Consistent(w, predict)
    ensures forall other | other in s.tables && other != id :: Undisturbed(s, w, other)
  {
    hide Shaped, CacheAlive, CatalogHolds, EntryHolds, Exclusive, Undisturbed;
    TableChangeShaped(s, w, id, t);
    TableChangeCache(s, w, id, t);
    forall key | key in w.exact ensures EntryHolds(w, key, predict) { EntryFollows(s, w, key, predict); }
    forall other | other in s.tables && other != id ensures Undisturbed(s, w, other) && Exclusive(w, other) {
      TableChangeUndisturbs(s, w, id, t, other);
    }
  }

  // Admission: a new table over fresh blocks, or over the blocks of a cached prefix.
  lemma AdmitKeeps(s: Store, id: string, t: Table, predict: seq<Slot> -> Token)
    requires Consistent(s, predict) && id !in s.tables
    requires t.blocks != [] && Distinct(t.blocks) && t.length <= t.Capacity(s.size)
    requires forall b: nat | b in t.blocks :: b < |s.pool|
    requires || ((forall b: nat | b in t.blocks :: Holders(s.owned, b) == {}) && t.length == 0)
             || (&& (forall b: nat | b in t.blocks :: CacheHolders(s.owned, b) != {})
                 && (|t.blocks| - 1) * s.size < t.length)
    ensures Consistent(WithTable(s, id, t), predict)
    ensures forall other | other in s.tables :: Undisturbed(s, WithTable(s, id, t), other)
  {
    hide CacheAlive, CatalogHolds, EntryHolds, Undisturbed;
    var w := WithTable(s, id, t);
    assert Exclusive(w, id) by {
      if forall b: nat | b in t.blocks :: Holders(s.owned, b) == {} {
        FreshIsExclusive(s, id, t);
      } else {
        SharedIsExclusive(s, id, t);
      }
    }
    TableChangeKeeps(s, w, id, t, predict);
  }

  // Blocks that were free are the new owner's alone.
  lemma FreshIsExclusive(s: Store, id: string, t: Table)
    requires id !in s.tables && Mirrors(s.owned, s.tables, s.size)
    requires forall b: nat | b in t.blocks :: Holders(s.owned, b) == {}
    ensures Exclusive(WithTable(s, id, t), id)
  {
    var w := WithTable(s, id, t);
    forall k | 0 <= k < |t.blocks| ensures Private(w.owned, id, t.blocks[k]) {
      assert t.blocks[k] in t.blocks;
      HoldersInsert(s.owned, Request(id), t.blocks, t.blocks[k]);
    }
  }

  // A length that ends in the last block leaves no room in the blocks before it.
  lemma SharedIsExclusive(s: Store, id: string, t: Table)
    requires t.blocks != [] && (|t.blocks| - 1) * s.size < t.length
    ensures Exclusive(WithTable(s, id, t), id)
  {
    var w := WithTable(s, id, t);
    forall k | 0 <= k < |t.blocks| && (k + 1) * s.size > t.length
      ensures Private(w.owned, id, t.blocks[k]) || (k == |t.blocks| - 1 && k * s.size < t.length)
    {
      MulLess(|t.blocks| - 1, k + 1, s.size);
    }
  }

  // Growth: fresh blocks after a table whose writable blocks are already private.
  lemma ExtendKeeps(s: Store, id: string, more: seq<nat>, predict: seq<Slot> -> Token)
    requires Consistent(s, predict) && id in s.tables && AllPrivate(s, id)
    requires Distinct(more) && forall b: nat | b in more :: b < |s.pool| && Holders(s.owned, b) == {}
    ensures var t := s.tables[id].(blocks := s.tables[id].blocks + more);
            var w := WithTable(s, id, t);
            && Consistent(w, predict) && AllPrivate(w, id)
            && forall other | other in s.tables && other != id :: Undisturbed(s, w, other)
  {
    hide CacheAlive, CatalogHolds, EntryHolds, Undisturbed, Shaped, AllPrivate;
    var t := s.tables[id].(blocks := s.tables[id].blocks + more);
    var w := WithTable(s, id, t);
    ExtendIsChange(s, id, more);
    ExtendPrivate(s, id, more);
    PrivateIsExclusive(w, id);
    TableChangeKeeps(s, w, id, t, predict);
  }

  lemma PrivateIsExclusive(s: Store, id: string)
    requires id in s.tables && AllPrivate(s, id)
    ensures Exclusive(s, id)
  {
  }

  lemma ExtendIsChange(s: Store, id: string, more: seq<nat>)
    requires Shaped(s) && id in s.tables
    requires Distinct(more) && forall b: nat | b in more :: b < |s.pool| && Holders(s.owned, b) == {}
    ensures var t := s.tables[id].(blocks := s.tables[id].blocks + more);
            TableChange(s, WithTable(s, id, t), id, t)
  {
    var blocks := s.tables[id].blocks;
    TablePagesInPool(s, id);
    forall i, j | 0 <= i < |blocks| && 0 <= j < |more| ensures blocks[i] != more[j] {
      assert more[j] in more && blocks[i] in blocks;
    }
    MulMono(|blocks|, |blocks + more|, s.size);
  }

  lemma ExtendPrivate(s: Store, id: string, more: seq<nat>)
    requires Shaped(s) && id in s.tables && AllPrivate(s, id)
    requires forall b: nat | b in more :: Holders(s.owned, b) == {}
    ensures var t := s.tables[id].(blocks := s.tables[id].blocks + more);
            AllPrivate(WithTable(s, id, t), id)
  {
    var blocks := s.tables[id].blocks;
    var all := blocks + more;
    forall k | 0 <= k < |all| && (k + 1) * s.size > s.tables[id].length
      ensures Private(s.owned[Request(id) := all], id, all[k])
    {
      assert all[k] in all;
      if k >= |blocks| { assert all[k] == more[k - |blocks|] && all[k] in more; }
      HoldersReplace(s.owned, Request(id), all, all[k]);
    }
  }

  // And this is necessary: appending blocks behind a shared, partly filled tail would leave a
  // block with free slots in several hands. The manager's own growth does not look.
  lemma GrowthNeedsPrivateTail(s: Store, id: string, more: seq<nat>, predict: seq<Slot> -> Token)
    requires Consistent(s, predict) && id in s.tables && more != []
    requires Distinct(more) && forall b: nat | b in more :: b < |s.pool| && Holders(s.owned, b) == {}
    ensures var t := s.tables[id].(blocks := s.tables[id].blocks + more);
            Consistent(WithTable(s, id, t), predict) <==> AllPrivate(s, id)
  {
    hide CacheAlive, CatalogHolds, EntryHolds, Undisturbed;
    var blocks := s.tables[id].blocks;
    var all := blocks + more;
    var w := WithTable(s, id, s.tables[id].(blocks := all));
    if AllPrivate(s, id) {
      ExtendKeeps(s, id, more, predict);
    } else if Exclusive(w, id) {
      TablePagesInPool(s, id);
      forall k | 0 <= k < |blocks| && (k + 1) * s.size > s.tables[id].length
        ensures Private(s.owned, id, blocks[k])
      {
        assert all[k] == blocks[k] && blocks[k] in all && Private(w.owned, id, all[k]);
        HoldersReplace(s.owned, Request(id), all, blocks[k]);
      }
    }
  }

  lemma ExtendedStillStores(s: Store, id: string, more: seq<nat>, values: seq<Slot>)
    requires Shaped(s) && id in s.tables && Stored(s.pool, s.size, s.tables[id].blocks, values)
    requires forall b: nat | b in more :: b < |s.pool|
    ensures Stored(s.pool, s.size, s.tables[id].blocks + more, values)
  {
    hide Shaped;
    assert forall b | 0 <= b < |s.pool| :: |s.pool[b]| == s.size by { PoolShape(s); }
    StoredInMore(s.pool, s.size, s.tables[id].blocks, more, values);
  }

  lemma PoolShape(s: Store)
    requires Shaped(s)
    ensures s.size > 0 && forall b | 0 <= b < |s.pool| :: |s.pool[b]| == s.size
  {
  }

  // Copy-on-write: the shared tail is replaced by a fresh block holding the same page.
  ghost function Copied(s: Store, id: string, spare: nat): Store
    requires id in s.tables && s.tables[id].blocks != []
    requires Last(s.tables[id].blocks) < |s.pool| && spare < |s.pool|
  {
    WithTable(s, id, s.tables[id].(blocks := WithLast(s.tables[id].blocks, spare)))
    .(pool := s.pool[spare := s.pool[Last(s.tables[id].blocks)]])
  }

  function WithLast(blocks: seq<nat>, spare: nat): seq<nat>
    requires blocks != []
  {
    blocks[|blocks| - 1 := spare]
  }

  lemma CopyIsChange(s: Store, id: string, spare: nat)
    requires Shaped(s) && id in s.tables && spare < |s.pool| && Holders(s.owned, spare) == {}
    ensures s.tables[id].blocks != [] && Last(s.tables[id].blocks) < |s.pool|
    ensures TableChange(s, Copied(s, id, spare), id, Copied(s, id, spare).tables[id])
  {
    var blocks := s.tables[id].blocks;
    TablePagesInPool(s, id);
    assert Last(blocks) in blocks && spare !in blocks;
    var swapped := WithLast(blocks, spare);
    forall b: nat | b in swapped ensures b == spare || b in blocks { }
  }

  lemma CopyPrivate(s: Store, id: string, spare: nat)
    requires Shaped(s) && id in s.tables && spare < |s.pool| && Holders(s.owned, spare) == {}
    requires s.tables[id].blocks != [] && Last(s.tables[id].blocks) < |s.pool|
    requires Exclusive(s, id)
    ensures AllPrivate(Copied(s, id, spare), id)
  {
    var blocks := s.tables[id].blocks;
    var swapped := WithLast(blocks, spare);
    forall k | 0 <= k < |swapped| && (k + 1) * s.size > s.tables[id].length
      ensures Private(s.owned[Request(id) := swapped], id, swapped[k])
    {
      assert swapped[k] in swapped;
      HoldersReplace(s.owned, Request(id), swapped, swapped[k]);
    }
  }

  lemma CopyKeeps(s: Store, id: string, spare: nat, predict: seq<Slot> -> Token)
    requires Consistent(s, predict) && id in s.tables
    requires spare < |s.pool| && Holders(s.owned, spare) == {}
    ensures s.tables[id].blocks != [] && Last(s.tables[id].blocks) < |s.pool|
    ensures Consistent(Copied(s, id, spare), predict) && AllPrivate(Copied(s, id, spare), id)
    ensures forall other | other in s.tables && other != id :: Undisturbed(s, Copied(s, id, spare), other)
  {
    hide CacheAlive, CatalogHolds, EntryHolds, Undisturbed, Shaped, AllPrivate;
    CopyIsChange(s, id, spare);
    CopyPrivate(s, id, spare);
    PrivateIsExclusive(Copied(s, id, spare), id);
    TableChangeKeeps(s, Copied(s, id, spare), id, Copied(s, id, spare).tables[id], predict);
  }

  lemma CopiedStillStores(s: Store, id: string, spare: nat, values: seq<Slot>)
    requires Shaped(s) && id in s.tables && spare < |s.pool| && Holders(s.owned, spare) == {}
    requires s.tables[id].blocks != [] && Last(s.tables[id].blocks) < |s.pool|
    requires Stored(s.pool, s.size, s.tables[id].blocks, values)
    ensures Stored(Copied(s, id, spare).pool, s.size, Copied(s, id, spare).tables[id].blocks, values)
  {
    TablePagesInPool(s, id);
    assert spare !in s.tables[id].blocks;
  }

  ghost function Committed(s: Store, id: string, length: nat): Store
    requires id in s.tables
  {
    s.(tables := s.tables[id := s.tables[id].(length := length)])
  }

  // A change that leaves pool, cache and every other request's blocks as they are.
  ghost predicate SamePages(s: Store, w: Store) {
    w.size == s.size && w.pool == s.pool && w.catalog == s.catalog && w.exact == s.exact
  }

  lemma SameEntries(s: Store, w: Store, predict: seq<Slot> -> Token)
    requires SamePages(s, w) && CacheAlive(s) && forall key | key in s.exact :: EntryHolds(s, key, predict)
    ensures forall key | key in w.exact :: EntryHolds(w, key, predict)
  {
    forall key | key in w.exact ensures EntryHolds(w, key, predict) { EntryFollows(s, w, key, predict); }
  }

  lemma SamePagesUndisturbed(s: Store, w: Store, other: string)
    requires Shaped(s) && SamePages(s, w) && other in s.tables && other in w.tables
    requires w.tables[other] == s.tables[other]
    requires forall b: nat | Private(s.owned, other, b) :: Private(w.owned, other, b)
    ensures Undisturbed(s, w, other) && (Exclusive(s, other) ==> Exclusive(w, other))
  {
    hide Private;
    TablePagesInPool(s, other);
  }

  // Committing tokens only shrinks the writable part.
  lemma CommitKeeps(s: Store, id: string, length: nat, predict: seq<Slot> -> Token)
    requires Consistent(s, predict) && id in s.tables
    requires s.tables[id].length <= length <= s.tables[id].Capacity(s.size)
    ensures var w := Committed(s, id, length);
            && Consistent(w, predict)
            && (AllPrivate(s, id) ==> AllPrivate(w, id))
            && forall other | other in s.tables && other != id :: Undisturbed(s, w, other)
  {
    hide EntryHolds, Private, Exclusive, Undisturbed, AllPrivate, CatalogHolds, Shaped, CacheAlive;
    var w := Committed(s, id, length);
    SameEntries(s, w, predict);
    SameCatalog(s, w);
    CommitExclusive(s, id, length);
    CommitShaped(s, id, length);
    forall other | other in s.tables && other != id ensures Undisturbed(s, w, other) && Exclusive(w, other) {
      SamePagesUndisturbed(s, w, other);
    }
  }

  lemma CommitShaped(s: Store, id: string, length: nat)
    requires Shaped(s) && CacheAlive(s) && id in s.tables && length <= s.tables[id].Capacity(s.size)
    ensures Shaped(Committed(s, id, length)) && CacheAlive(Committed(s, id, length))
  {
  }

  lemma CommitExclusive(s: Store, id: string, length: nat)
    requires id in s.tables && s.tables[id].length <= length && Exclusive(s, id)
    ensures Exclusive(Committed(s, id, length), id)
    ensures AllPrivate(s, id) ==> AllPrivate(Committed(s, id, length), id)
  {
  }

  ghost function Released(s: Store, id: string): Store {
    s.(owned := s.owned - {Request(id)}, tables := s.tables - {id})
  }

  // Release: the request's references go away; a private block elsewhere is not affected.
  lemma ReleaseKeeps(s: Store, id: string, predict: seq<Slot> -> Token)
    requires Consistent(s, predict) && id in s.tables
    ensures Consistent(Released(s, id), predict)
    ensures forall other | other in s.tables && other != id :: Undisturbed(s, Released(s, id), other)
  {
    hide EntryHolds, Exclusive, Undisturbed, CatalogHolds, Private;
    var w := Released(s, id);
    ReleaseShaped(s, id);
    SameCatalog(s, w);
    SameEntries(s, w, predict);
    forall other | other in s.tables && other != id ensures Undisturbed(s, w, other) && Exclusive(w, other) {
      ReleasePrivate(s, id, other);
      SamePagesUndisturbed(s, w, other);
    }
  }

  lemma SameCatalog(s: Store, w: Store)
    requires SamePages(s, w) && CatalogHolds(s)
    ensures CatalogHolds(w)
  {
  }

  lemma ReleaseShaped(s: Store, id: string)
    requires Shaped(s) && CacheAlive(s) && id in s.tables
    ensures Shaped(Released(s, id)) && CacheAlive(Released(s, id))
  {
    forall b ensures CacheHolders(Released(s, id).owned, b) == CacheHolders(s.owned, b) {
      CacheHoldersOf(s.owned, id, [], b);
    }
  }

  lemma ReleasePrivate(s: Store, id: string, other: string)
    requires Request(id) in s.owned && other != id
    ensures forall b: nat | Private(s.owned, other, b) :: Private(Released(s, id).owned, other, b)
  {
    forall b: nat | Private(s.owned, other, b) ensures Private(Released(s, id).owned, other, b) {
      HoldersRemove(s.owned, Request(id), b);
    }
  }

  // Eviction: cache owners disappear and nothing else happens.
  lemma EvictKeeps(s: Store, w: Store, predict: seq<Slot> -> Token)
    requires Consistent(s, predict) && CacheAlive(w)
    requires w == s.(owned := w.owned, catalog := w.catalog, exact := w.exact)
    requires LedgerShrank(s.owned, w.owned) && SubCatalog(w.catalog, s.catalog) && SubEntries(w.exact, s.exact)
    ensures Consistent(w, predict)
    ensures forall id | id in s.tables :: Undisturbed(s, w, id)
  {
    hide EntryHolds, Exclusive, Undisturbed, Private;
    forall key | key in w.exact ensures EntryHolds(w, key, predict) { EntryFollows(s, w, key, predict); }
    forall id | id in w.tables ensures Exclusive(w, id) && Undisturbed(s, w, id) {
      EvictPrivate(s, w, id);
      assert Undisturbed(s, w, id) && Exclusive(w, id) by {
        SamePagesUndisturbed(s, s.(owned := w.owned), id);
        CacheIrrelevant(s, s.(owned := w.owned), w, id);
      }
    }
  }

  lemma EvictPrivate(s: Store, w: Store, id: string)
    requires LedgerShrank(s.owned, w.owned)
    ensures forall b: nat | Private(s.owned, id, b) :: Private(w.owned, id, b)
  {
    forall b: nat | Private(s.owned, id, b) ensures Private(w.owned, id, b) {
      PrivateIsElsewhere(s.owned, id, b);
      assert Holders(w.owned, b) <= Holders(s.owned, b);
      assert Request(id) in Holders(w.owned, b);
    }
  }

  lemma CacheIrrelevant(s: Store, v: Store, w: Store, id: string)
    requires Undisturbed(s, v, id) && w == v.(catalog := w.catalog, exact := w.exact)
    ensures Undisturbed(s, w, id) && (Exclusive(v, id) ==> Exclusive(w, id))
  {
  }

  // ---- writing --------------------------------------------------------------------------

  // A write past the committed length, into a block the request has to itself.
  lemma WriteKeeps(s: Store, id: string, k: nat, slot: nat, v: Slot, predict: seq<Slot> -> Token)
    requires Consistent(s, predict) && id in s.tables && AllPrivate(s, id)
    requires k < |s.tables[id].blocks| && slot < s.size && s.tables[id].length <= k * s.size + slot
    ensures var b := s.tables[id].blocks[k]; b < |s.pool| && |s.pool[b]| == s.size
    ensures var w := s.(pool := SetSlot(s.pool, s.tables[id].blocks[k], slot, v));
            && Consistent(w, predict) && AllPrivate(w, id)
            && forall other | other in s.tables && other != id :: Undisturbed(s, w, other)
  {
    hide Undisturbed, Exclusive, EntryHolds, CatalogHolds;
    TablePagesInPool(s, id);
    var b := s.tables[id].blocks[k];
    var w := s.(pool := SetSlot(s.pool, b, slot, v));
    assert (k + 1) * s.size == k * s.size + s.size;
    PrivateIsElsewhere(s.owned, id, b);
    assert CatalogHolds(w) by { WriteMissesCatalog(s, w, b); }
    forall key | key in w.exact ensures EntryHolds(w, key, predict) { EntryFollows(s, w, key, predict); }
    forall other | other in s.tables ensures Exclusive(w, other) { ExclusiveIgnoresPool(s, w, other); }
    forall other | other in s.tables && other != id ensures Undisturbed(s, w, other) { WriteElsewhere(s, w, other, b); }
  }

  lemma WriteMissesCatalog(s: Store, w: Store, b: nat)
    requires CatalogHolds(s) && CacheAlive(s) && CacheHolders(s.owned, b) == {}
    requires w == s.(pool := w.pool) && |w.pool| == |s.pool|
    requires forall x: nat | x < |s.pool| && x != b :: w.pool[x] == s.pool[x]
    ensures CatalogHolds(w)
  {
  }

  lemma ExclusiveIgnoresPool(s: Store, w: Store, id: string)
    requires id in s.tables && Exclusive(s, id) && w == s.(pool := w.pool)
    ensures Exclusive(w, id)
  {
  }

  lemma WriteElsewhere(s: Store, w: Store, other: string, b: nat)
    requires Shaped(s) && other in s.tables && b !in s.tables[other].blocks
    requires w == s.(pool := w.pool) && |w.pool| == |s.pool|
    requires forall x: nat | x < |s.pool| && x != b :: w.pool[x] == s.pool[x]
    ensures Undisturbed(s, w, other)
  {
    TablePagesInPool(s, other);
  }

  // ---- publishing -----------------------------------------------------------------------

  ghost predicate PublishChange(s: Store, w: Store, id: string, tokens: seq<Token>, next: Option<Token>, maxBlocks: nat)
    requires id in s.tables && s.size > 0
  {
    var blocks := s.tables[id].blocks;
    var adds := AddsEntry(s.exact, tokens, s.size, next, maxBlocks);
    var touched := PublishedBlocks(tokens, blocks, s.size, adds);
    && w == s.(owned := w.owned, catalog := w.catalog, exact := w.exact)
    && w.catalog == Offered(s.catalog, tokens, blocks, s.size, CompleteBlocks(tokens, blocks, s.size))
    && LedgerGrew(s.owned, w.owned, touched)
    && if adds
       then && tokens in w.exact && w.exact == s.exact[tokens := w.exact[tokens]]
            && w.exact[tokens].blocks == touched && w.exact[tokens].nextToken == next.value
       else w.exact == s.exact
  }

  // Publishing a prompt whose K/V the request holds: the cache gains true entries, and the
  // request gives up exclusivity at most of the partly filled last block.
  lemma PublishKeeps(s: Store, w: Store, id: string, tokens: seq<Token>, next: Option<Token>, maxBlocks: nat,
                     predict: seq<Slot> -> Token)
    requires Consistent(s, predict) && id in s.tables && Shaped(w) && CacheAlive(w)
    requires PublishChange(s, w, id, tokens, next, maxBlocks)
    requires tokens != [] && |tokens| <= s.tables[id].length
    requires Stored(s.pool, s.size, s.tables[id].blocks, KvOf(tokens))
    requires next.Some? ==> && next.value == predict(KvOf(tokens))
                            && |s.tables[id].blocks| == BlocksFor(|tokens|, s.size) && s.tables[id].length == |tokens|
    ensures Consistent(w, predict)
    ensures forall other | other in s.tables && other != id :: Undisturbed(s, w, other)
  {
    hide EntryHolds, Exclusive, Undisturbed, Private, Shaped, CacheAlive, CatalogHolds, Stored;
    assert CatalogHolds(w) by { PublishCatalog(s, w, id, tokens, next, maxBlocks); }
    forall key | key in w.exact ensures EntryHolds(w, key, predict) {
      PublishedEntryHolds(s, w, id, tokens, next, maxBlocks, predict, key);
    }
    forall other | other in s.tables && other != id ensures Undisturbed(s, w, other) && Exclusive(w, other) {
      PublishOther(s, w, id, tokens, next, maxBlocks, other);
    }
    PublishExclusive(s, w, id, tokens, next, maxBlocks);
  }

  lemma PublishCatalog(s: Store, w: Store, id: string, tokens: seq<Token>, next: Option<Token>, maxBlocks: nat)
    requires Shaped(s) && CatalogHolds(s) && id in s.tables && PublishChange(s, w, id, tokens, next, maxBlocks)
    requires Stored(s.pool, s.size, s.tables[id].blocks, KvOf(tokens))
    ensures CatalogHolds(w)
  {
    var blocks := s.tables[id].blocks;
    var v := s.(catalog := Offered(s.catalog, tokens, blocks, s.size, CompleteBlocks(tokens, blocks, s.size)));
    OfferedHolds(s, id, tokens, CompleteBlocks(tokens, s.tables[id].blocks, s.size));
    assert w.catalog == v.catalog && w.pool == v.pool && w.size == v.size;
  }

  lemma PublishOther(s: Store, w: Store, id: string, tokens: seq<Token>, next: Option<Token>, maxBlocks: nat,
                     other: string)
    requires Shaped(s) && id in s.tables && PublishChange(s, w, id, tokens, next, maxBlocks)
    requires other in s.tables && other != id
    ensures Undisturbed(s, w, other) && (Exclusive(s, other) ==> Exclusive(w, other))
  {
    hide Shaped, Private;
    PublishPrivate(s, w, id, tokens, next, maxBlocks, other);
    SamePagesUndisturbed(s, s.(owned := w.owned), other);
    CacheIrrelevant(s, s.(owned := w.owned), w, other);
  }

  lemma {:induction false} OfferedHolds(s: Store, id: string, tokens: seq<Token>, k: nat)
    requires Shaped(s) && CatalogHolds(s) && id in s.tables
    requires Stored(s.pool, s.size, s.tables[id].blocks, KvOf(tokens))
    requires k <= |tokens| / s.size && k <= |s.tables[id].blocks|
    ensures CatalogHolds(s.(catalog := Offered(s.catalog, tokens, s.tables[id].blocks, s.size, k)))
  {
    hide Stored, Blocks, KvOf, CatalogHolds, LastPage;
    if k > 0 {
      OfferedHolds(s, id, tokens, k - 1);
      PageHoldsBlock(s, id, tokens, k);
      CatalogGains(s, Offered(s.catalog, tokens, s.tables[id].blocks, s.size, k - 1), Blocks(tokens, k, s.size),
                   s.tables[id].blocks[k - 1]);
    } else {
      assert s.(catalog := s.catalog) == s;
    }
  }

  lemma CatalogGains(s: Store, catalog: map<seq<Token>, nat>, p: seq<Token>, b: nat)
    requires CatalogHolds(s.(catalog := catalog))
    requires s.size <= |p| && b < |s.pool| && s.pool[b] == LastPage(p, s.size)
    ensures CatalogHolds(s.(catalog := catalog[p := b]))
  {
    hide LastPage;
  }

  lemma PageHoldsBlock(s: Store, id: string, tokens: seq<Token>, k: nat)
    requires Shaped(s) && id in s.tables
    requires Stored(s.pool, s.size, s.tables[id].blocks, KvOf(tokens))
    requires 0 < k <= |tokens| / s.size && k <= |s.tables[id].blocks|
    ensures var b := s.tables[id].blocks[k - 1]; var p := Blocks(tokens, k, s.size);
            b < |s.pool| && s.size <= |p| && s.pool[b] == LastPage(p, s.size)
  {
    hide KvOf, Stored;
    BlockFits(k - 1, |tokens|, s.size);
    var p := Blocks(tokens, k, s.size);
    KvOfPrefix(tokens, k * s.size);
    PageOfRun(s.pool, s.size, s.tables[id].blocks, KvOf(tokens), k);
    assert KvOf(p) == KvOf(tokens)[..k * s.size];
    assert KvOf(p)[|p| - s.size..] == KvOf(tokens)[(k - 1) * s.size..k * s.size];
  }

  // The page of a block that lies entirely within a stored run.
  lemma PageOfRun(pool: Pool, size: nat, blocks: seq<nat>, values: seq<Slot>, k: nat)
    requires Stored(pool, size, blocks, values) && 0 < k <= |blocks| && 0 <= (k - 1) * size <= k * size <= |values|
    requires k * size == (k - 1) * size + size
    ensures blocks[k - 1] < |pool| && pool[blocks[k - 1]] == values[(k - 1) * size..k * size]
  {
    var page := pool[blocks[k - 1]];
    forall slot | 0 <= slot < size ensures page[slot] == values[(k - 1) * size..k * size][slot] {
      assert (k - 1) * size + slot < |values|;
    }
  }

  lemma PublishedEntryHolds(s: Store, w: Store, id: string, tokens: seq<Token>, next: Option<Token>, maxBlocks: nat,
                            predict: seq<Slot> -> Token, key: seq<Token>)
    requires Consistent(s, predict) && id in s.tables && PublishChange(s, w, id, tokens, next, maxBlocks)
    requires tokens != [] && Stored(s.pool, s.size, s.tables[id].blocks, KvOf(tokens))
    requires next.Some? ==> next.value == predict(KvOf(tokens)) && |s.tables[id].blocks| == BlocksFor(|tokens|, s.size)
    requires key in w.exact
    ensures EntryHolds(w, key, predict)
  {
    hide EntryHolds, Exclusive, Shaped, CatalogHolds, CacheAlive, Stored;
    if key in s.exact && w.exact[key] == s.exact[key] {
      EntryFollows(s, w, key, predict);
    } else {
      NewEntryHolds(s, w, id, tokens, next, maxBlocks, predict);
    }
  }

  lemma NewEntryHolds(s: Store, w: Store, id: string, tokens: seq<Token>, next: Option<Token>, maxBlocks: nat,
                      predict: seq<Slot> -> Token)
    requires Shaped(s) && id in s.tables && PublishChange(s, w, id, tokens, next, maxBlocks) && tokens != []
    requires Stored(s.pool, s.size, s.tables[id].blocks, KvOf(tokens))
    requires next.Some? ==> next.value == predict(KvOf(tokens)) && |s.tables[id].blocks| == BlocksFor(|tokens|, s.size)
    ensures AddsEntry(s.exact, tokens, s.size, next, maxBlocks) ==> EntryHolds(w, tokens, predict)
  {
    TablePagesInPool(s, id);
    var blocks := s.tables[id].blocks;
    assert blocks[..|blocks|] == blocks;
  }

  lemma PublishPrivate(s: Store, w: Store, id: string, tokens: seq<Token>, next: Option<Token>, maxBlocks: nat,
                       other: string)
    requires Shaped(s) && id in s.tables && PublishChange(s, w, id, tokens, next, maxBlocks) && other != id
    ensures forall b: nat | Private(s.owned, other, b) :: Private(w.owned, other, b)
  {
    var blocks := s.tables[id].blocks;
    forall b: nat | Private(s.owned, other, b) ensures Private(w.owned, other, b) {
      PrivateIsElsewhere(s.owned, other, b);
      assert b !in s.owned[Request(id)];
      UntouchedHolders(s.owned, w.owned,
                       PublishedBlocks(tokens, blocks, s.size, AddsEntry(s.exact, tokens, s.size, next, maxBlocks)), b);
    }
  }

  lemma UntouchedHolders(before: Ledger, after: Ledger, touched: seq<nat>, b: nat)
    requires LedgerGrew(before, after, touched) && b !in touched
    ensures Holders(after, b) == Holders(before, b)
  {
  }

  lemma PublishExclusive(s: Store, w: Store, id: string, tokens: seq<Token>, next: Option<Token>, maxBlocks: nat)
    requires Shaped(s) && id in s.tables && PublishChange(s, w, id, tokens, next, maxBlocks) && Exclusive(s, id)
    requires tokens != [] && |tokens| <= s.tables[id].length
    requires next.Some? ==> |s.tables[id].blocks| == BlocksFor(|tokens|, s.size) && s.tables[id].length == |tokens|
    ensures Exclusive(w, id)
  {
    TablePagesInPool(s, id);
    var t := s.tables[id];
    var adds := AddsEntry(s.exact, tokens, s.size, next, maxBlocks);
    var touched := PublishedBlocks(tokens, t.blocks, s.size, adds);
    forall k | 0 <= k < |t.blocks| && (k + 1) * s.size > t.length
      ensures Private(w.owned, id, t.blocks[k]) || (k == |t.blocks| - 1 && k * s.size < t.length)
    {
      if adds {
        LastOnly(k, |t.blocks|, |tokens|, s.size);
      } else {
        PastComplete(k, |tokens|, t.length, s.size);
        assert t.blocks[k] !in touched;
        UntouchedHolders(s.owned, w.owned, touched, t.blocks[k]);
      }
    }
  }

  lemma LastOnly(k: nat, blocks: nat, length: nat, size: nat)
    requires size > 0 && k < blocks == BlocksFor(length, size) && (k + 1) * size > length
    ensures k == blocks - 1 && k * size < length
  {
    if k + 1 <= blocks - 1 { MulMono(k + 1, blocks - 1, size); }
    assert blocks * size == (blocks - 1) * size + size;
  }

  lemma PastComplete(k: nat, tokens: nat, length: nat, size: nat)
    requires size > 0 && tokens <= length < (k + 1) * size
    ensures tokens / size <= k
  {
    DivBounds(tokens, size);
    MulLess(tokens / size, k + 1, size);
  }
}
