// The engine's bookkeeping is what makes its kernel launches race free.
module BatchLaunches {
  import opened Common
  import opened Ownership
  import opened Paging
  import opened PagedStore
  import opened GreedyDecoding
  import opened Lifecycle
  import opened CapacityFacts
  import opened Batching
  import opened KvWrites

  // The page of a request's position belongs to that request alone.
  ghost predicate OwnPage(s: Store, id: string, position: nat) {
    && s.size > 0 && id in s.tables && position / s.size < |s.tables[id].blocks|
    && Holders(s.owned, s.tables[id].blocks[position / s.size]) == {Request(id)}
  }

  // So it is wherever a ready row is about to write.
  lemma WrittenPage(st: State, id: string, count: nat, position: nat, predict: seq<Slot> -> Token, eos: set<Token>)
    requires Inv(st, predict, eos) && Ready(st, id, count)
    requires st.store.tables[id].length <= position < st.store.tables[id].length + count
    ensures OwnPage(st.store, id, position)
  {
    hide Exclusive, CacheAlive, CatalogHolds, EntryHolds, GenOk, RowOk, Holders;
    WriteExclusivity(st.store, id, st.store.tables[id].length + count, position);
  }

  lemma HeldElsewhere(st: State, id: string, b: nat, predict: seq<Slot> -> Token, eos: set<Token>)
    requires Inv(st, predict, eos) && id in st.store.tables && b in st.store.tables[id].blocks
    ensures Request(id) in Holders(st.store.owned, b) && b < |st.store.pool| && st.store.size > 0
  {
    hide Exclusive, CacheAlive, CatalogHolds, EntryHolds, GenOk, RowOk;
    TablePagesInPool(st.store, id);
    assert b in st.store.owned[Request(id)];
  }

  // The pages set aside for padded rows, if there are any.
  function DummyPages(st: State, dummy: string): seq<nat> {
    if dummy in st.reserved && dummy in st.store.tables then st.store.tables[dummy].blocks else []
  }

  // The rows of a decode batch as they are staged.
  ghost predicate LiveRows(st: State, rows: seq<Plan>, live: seq<LiveRow>) {
    && DistinctRows(rows) && |live| == |rows|
    && forall i | 0 <= i < |rows| :: Ready(st, rows[i].id, 1) && live[i].table == st.store.tables[rows[i].id]
  }

  // Decode rows that passed the capacity check satisfy what race freedom needs of them, whether
  // there are padded rows or not.
  lemma ReadyRowsOwnPages(st: State, rows: seq<Plan>, live: seq<LiveRow>, dummy: string, padded: nat,
                          predict: seq<Slot> -> Token, eos: set<Token>)
    requires Inv(st, predict, eos) && st.reserved <= {dummy} && LiveRows(st, rows, live)
    ensures st.store.size > 0
    ensures padded <= |DummyPages(st, dummy)| * st.store.size ==>
              OwnPages(live, DummySlots(DummyPages(st, dummy), st.store.size, padded), st.store.size, |st.store.pool|)
  {
    hide Exclusive, CacheAlive, CatalogHolds, EntryHolds, GenOk, RowOk, Inv, Ready, Holders, OwnPages, DummyPages;
    DummyFacts(st, dummy, predict, eos);
    if padded <= |DummyPages(st, dummy)| * st.store.size {
      forall i | 0 <= i < |rows| { LiveRowFacts(st, rows[i].id, live[i], predict, eos); }
      OwnPagesFrom(st, rows, live, dummy, padded);
    }
  }

  lemma DummyFacts(st: State, dummy: string, predict: seq<Slot> -> Token, eos: set<Token>)
    requires Inv(st, predict, eos) && st.reserved <= {dummy}
    ensures st.store.size > 0 && Distinct(DummyPages(st, dummy)) && st.active !! st.reserved
    ensures forall b: nat | b in DummyPages(st, dummy) ::
              b < |st.store.pool| && Holders(st.store.owned, b) == {Request(dummy)} && dummy !in st.active
  {
    hide CacheAlive, CatalogHolds, EntryHolds, GenOk, RowOk, Placed;
    if dummy in st.reserved {
      assert dummy in st.store.tables && st.store.tables[dummy].length == 0 && Exclusive(st.store, dummy);
      DummyIsPrivate(st.store, dummy);
      TablePagesInPool(st.store, dummy);
    }
  }

  lemma LiveRowFacts(st: State, id: string, row: LiveRow, predict: seq<Slot> -> Token, eos: set<Token>)
    requires Inv(st, predict, eos) && Ready(st, id, 1) && row.table == st.store.tables[id]
    ensures st.store.size > 0 && row.table.length < row.table.Capacity(st.store.size) && id in st.active
    ensures forall b | b in row.table.blocks :: b < |st.store.pool|
    ensures Holders(st.store.owned, WritePage(row, st.store.size)) == {Request(id)}
  {
    hide Exclusive, CacheAlive, CatalogHolds, EntryHolds, GenOk, RowOk, Holders;
    WrittenPage(st, id, 1, row.table.length, predict, eos);
    forall b | b in row.table.blocks ensures b < |st.store.pool| { HeldElsewhere(st, id, b, predict, eos); }
  }

  lemma OwnPagesFrom(st: State, rows: seq<Plan>, live: seq<LiveRow>, dummy: string, padded: nat)
    requires st.store.size > 0 && Distinct(DummyPages(st, dummy))
    requires forall b: nat | b in DummyPages(st, dummy) ::
               b < |st.store.pool| && Holders(st.store.owned, b) == {Request(dummy)} && dummy !in st.active
    requires padded <= |DummyPages(st, dummy)| * st.store.size && DistinctRows(rows) && |live| == |rows|
    requires forall i | 0 <= i < |rows| ::
               && rows[i].id in st.active && live[i].table.length < live[i].table.Capacity(st.store.size)
               && (forall b | b in live[i].table.blocks :: b < |st.store.pool|)
               && Holders(st.store.owned, WritePage(live[i], st.store.size)) == {Request(rows[i].id)}
    ensures OwnPages(live, DummySlots(DummyPages(st, dummy), st.store.size, padded), st.store.size, |st.store.pool|)
  {
    hide Holders, DummyPages;
    var slots := DummySlots(DummyPages(st, dummy), st.store.size, padded);
    DummySlotsDistinct(DummyPages(st, dummy), st.store.size, padded);
    DummySlotsWithin(DummyPages(st, dummy), st.store.size, padded);
    forall i, j | 0 <= i < j < |live| ensures WritePage(live[i], st.store.size) != WritePage(live[j], st.store.size) {
      assert Request(rows[i].id) in {Request(rows[i].id)} && rows[i].id != rows[j].id;
    }
    hide DummySlots;
    forall i, k | 0 <= i < |live| && 0 <= k < |slots| ensures WritePage(live[i], st.store.size) != slots[k].0 {
      assert slots[k].0 in DummyPages(st, dummy);
      assert Request(rows[i].id) in {Request(rows[i].id)} && rows[i].id != dummy;
    }
  }

  // ---- one decode launch ------------------------------------------------------------------

  // Every changed page is held by one request alone: a row of the batch, or the padded rows.
  ghost predicate OwnPagesOnly(st: State, w: State, rows: seq<Plan>, dummy: string) {
    && w == st.(store := st.store.(pool := w.store.pool)) && |w.store.pool| == |st.store.pool|
    && (forall b: nat | b < |w.store.pool| :: |w.store.pool[b]| == st.store.size)
    && forall b: nat | b < |st.store.pool| && w.store.pool[b] != st.store.pool[b] ::
         HeldByOne(st.store.owned, b, RowIds(rows) + (st.reserved * {dummy}))
  }

  ghost predicate HeldByOne(owned: Ledger, b: nat, ids: set<string>) {
    exists id | id in ids :: Holders(owned, b) == {Request(id)}
  }

  // A decode launch of ready rows that attended to their own contexts, in any order of its
  // programs, does for all of them at once what the forward pass does for each: every row is
  // staged with its pending token, nobody else notices, and the invariant holds.
  lemma DecodeLaunchStages(st: State, w: State, rows: seq<Plan>, live: seq<LiveRow>, dummy: string, padded: nat,
                           vectors: seq<Slot>, writes: seq<Write<Slot>>, predict: seq<Slot> -> Token, eos: set<Token>)
    requires Inv(st, predict, eos) && st.reserved <= {dummy} && LiveRows(st, rows, live)
    requires st.store.size > 0 && padded <= |DummyPages(st, dummy)| * st.store.size
    requires Launched(writes, live, DummySlots(DummyPages(st, dummy), st.store.size, padded), vectors, st.store.size)
    requires forall i | 0 <= i < |rows| ::
               live[i].pending.Some? && vectors[i] == Cell(KvOf(Context(st, rows[i].id)), live[i].pending.value)
    requires w == st.(store := st.store.(pool := w.store.pool))
    requires AllStored(st.store.pool, w.store.pool, writes, st.store.size)
    ensures Inv(w, predict, eos)
    ensures forall i | 0 <= i < |rows| :: Staged(w, rows[i].id, [live[i].pending.value])
    ensures forall x | x in st.active && x !in RowIds(rows) :: Undisturbed(st.store, w.store, x)
  {
    hide Inv, Staged, Ready, Launched, AllStored, OwnPages, KvOf, Undisturbed, DummyPages, OwnPagesOnly, Context;
    ReadyRowsOwnPages(st, rows, live, dummy, padded, predict, eos);
    LaunchIsOwn(st, w, rows, live, dummy, padded, vectors, writes, predict, eos);
    forall i | 0 <= i < |rows| ensures Staged(w, rows[i].id, [live[i].pending.value]) {
      RowIsStaged(st, w, rows, live, dummy, padded, vectors, writes, predict, eos, i);
    }
    forall x | x in st.active && x !in RowIds(rows) ensures Undisturbed(st.store, w.store, x) {
      OthersUnwritten(st, w, rows, dummy, x, predict, eos);
    }
    var aheads := seq(|rows|, i requires 0 <= i < |rows| => [live[i].pending.value]);
    LaunchKeepsInv(st, w, rows, aheads, dummy, predict, eos);
  }

  lemma LaunchIsOwn(st: State, w: State, rows: seq<Plan>, live: seq<LiveRow>, dummy: string, padded: nat,
                    vectors: seq<Slot>, writes: seq<Write<Slot>>, predict: seq<Slot> -> Token, eos: set<Token>)
    requires Inv(st, predict, eos) && st.reserved <= {dummy} && LiveRows(st, rows, live)
    requires st.store.size > 0 && padded <= |DummyPages(st, dummy)| * st.store.size
    requires Launched(writes, live, DummySlots(DummyPages(st, dummy), st.store.size, padded), vectors, st.store.size)
    requires w == st.(store := st.store.(pool := w.store.pool))
    requires AllStored(st.store.pool, w.store.pool, writes, st.store.size)
    ensures OwnPagesOnly(st, w, rows, dummy)
  {
    hide Inv, Ready, Launched, AllStored, DummyPages, Holders;
    var slots := DummySlots(DummyPages(st, dummy), st.store.size, padded);
    StoredShape(st.store.pool, w.store.pool, writes, st.store.size);
    DummyFacts(st, dummy, predict, eos);
    forall b: nat | b < |st.store.pool| && w.store.pool[b] != st.store.pool[b]
      ensures HeldByOne(st.store.owned, b, RowIds(rows) + (st.reserved * {dummy}))
    {
      forall i | 0 <= i < |live| { LiveRowFacts(st, rows[i].id, live[i], predict, eos); }
      if i :| 0 <= i < |live| && WritePage(live[i], st.store.size) == b {
        assert rows[i] in rows && rows[i].id in RowIds(rows);
      } else if k :| 0 <= k < |slots| && slots[k].0 == b {
        DummyPage(st, dummy, b);
      } else {
        OtherPagesKept(st.store.pool, w.store.pool, writes, live, slots, vectors, st.store.size, b);
        assert false;
      }
    }
  }

  lemma StoredShape<V>(before: Pages<V>, after: Pages<V>, writes: seq<Write<V>>, size: nat)
    requires AllStored(before, after, writes, size)
    ensures |after| == |before| && forall b: nat | b < |after| :: |after[b]| == size
  {
  }

  lemma DummyPage(st: State, dummy: string, b: nat)
    requires b in DummyPages(st, dummy)
    ensures dummy in st.reserved * {dummy}
  {
  }

  // The row's run, longer by its pending token.
  lemma RowIsStaged(st: State, w: State, rows: seq<Plan>, live: seq<LiveRow>, dummy: string, padded: nat,
                    vectors: seq<Slot>, writes: seq<Write<Slot>>, predict: seq<Slot> -> Token, eos: set<Token>, r: nat)
    requires Inv(st, predict, eos) && st.reserved <= {dummy} && LiveRows(st, rows, live) && r < |rows|
    requires st.store.size > 0 && padded <= |DummyPages(st, dummy)| * st.store.size
    requires Launched(writes, live, DummySlots(DummyPages(st, dummy), st.store.size, padded), vectors, st.store.size)
    requires OwnPages(live, DummySlots(DummyPages(st, dummy), st.store.size, padded), st.store.size, |st.store.pool|)
    requires live[r].pending.Some? && vectors[r] == Cell(KvOf(Context(st, rows[r].id)), live[r].pending.value)
    requires w == st.(store := st.store.(pool := w.store.pool))
    requires AllStored(st.store.pool, w.store.pool, writes, st.store.size)
    ensures Staged(w, rows[r].id, [live[r].pending.value])
  {
    hide Inv, Ready, Launched, AllStored, OwnPages, Stored, DummyPages, Holders, KvOf;
    var id, slots := rows[r].id, DummySlots(DummyPages(st, dummy), st.store.size, padded);
    RowFacts(st, id, 1, predict, eos);
    DummyFacts(st, dummy, predict, eos);
    forall i | 0 <= i < |live| && i != r ensures WritePage(live[i], st.store.size) !in live[r].table.blocks {
      LiveRowFacts(st, rows[i].id, live[i], predict, eos);
      NotListed(st, id, rows[i].id, WritePage(live[i], st.store.size), predict, eos);
    }
    DummySlotsWithin(DummyPages(st, dummy), st.store.size, padded);
    forall k | 0 <= k < |slots| ensures slots[k].0 !in live[r].table.blocks {
      NotListed(st, id, dummy, slots[k].0, predict, eos);
    }
    DecodeBatchStores(st.store.pool, w.store.pool, writes, live, slots, vectors, st.store.size, r,
                      KvOf(Context(st, id)));
    KvOfStep(Context(st, id), live[r].pending.value);
    ReadyIgnoresPool(st, w, id, 1);
  }

  // What a ready row has committed is stored in distinct pages.
  lemma RowFacts(st: State, id: string, count: nat, predict: seq<Slot> -> Token, eos: set<Token>)
    requires Inv(st, predict, eos) && Ready(st, id, count)
    ensures id in st.gens && id in st.store.tables && id in st.active && Distinct(st.store.tables[id].blocks)
    ensures st.store.tables[id].length <= |st.gens[id].Tokens()| && |Context(st, id)| == st.store.tables[id].length
    ensures Stored(st.store.pool, st.store.size, st.store.tables[id].blocks, KvOf(Context(st, id)))
  {
    hide KvOf, Stored, Consistent, GenOk;
    ActiveRow(st, id, predict, eos);
    TableFacts(st.store, predict, id);
  }

  // A block held by one request alone is in nobody else's table.
  lemma NotListed(st: State, id: string, other: string, b: nat, predict: seq<Slot> -> Token, eos: set<Token>)
    requires Inv(st, predict, eos) && id in st.store.tables && other != id
    requires Holders(st.store.owned, b) == {Request(other)}
    ensures b !in st.store.tables[id].blocks
  {
    hide Inv, Holders;
    if b in st.store.tables[id].blocks {
      HeldElsewhere(st, id, b, predict, eos);
      assert false;
    }
  }

  lemma OthersUnwritten(st: State, w: State, rows: seq<Plan>, dummy: string, id: string, predict: seq<Slot> -> Token,
                        eos: set<Token>)
    requires Inv(st, predict, eos) && OwnPagesOnly(st, w, rows, dummy) && id in st.active && id !in RowIds(rows)
    ensures Undisturbed(st.store, w.store, id)
  {
    hide Exclusive, CacheAlive, CatalogHolds, EntryHolds, GenOk, RowOk, Holders;
    ActiveRow(st, id, predict, eos);
    TablePagesInPool(st.store, id);
    forall b: nat | b in st.store.tables[id].blocks ensures w.store.pool[b] == st.store.pool[b] {
      if w.store.pool[b] != st.store.pool[b] {
        var x :| x in RowIds(rows) + (st.reserved * {dummy}) && Holders(st.store.owned, b) == {Request(x)};
        NotListed(st, id, x, b, predict, eos);
        assert false;
      }
    }
  }

  lemma LaunchKeepsInv(st: State, w: State, rows: seq<Plan>, aheads: seq<seq<Token>>, dummy: string,
                       predict: seq<Slot> -> Token, eos: set<Token>)
    requires Inv(st, predict, eos) && OwnPagesOnly(st, w, rows, dummy)
    requires |aheads| == |rows| && forall i | 0 <= i < |rows| :: Staged(w, rows[i].id, aheads[i])
    requires forall x | x in st.active && x !in RowIds(rows) :: Undisturbed(st.store, w.store, x)
    ensures Inv(w, predict, eos)
  {
    hide Consistent, RowOk, GenOk, Staged, Undisturbed, OwnPagesOnly, Stored;
    LaunchIsConsistent(st, w, rows, dummy, predict);
    forall x | x in w.active ensures RowOk(w.store, x, w.gens[x]) {
      assert RowOk(st.store, x, st.gens[x]);
      if x in RowIds(rows) {
        var plan :| plan in rows && plan.id == x;
        var i :| 0 <= i < |rows| && rows[i] == plan;
        StagedRowOk(st, w, x, aheads[i]);
      } else {
        RowUndisturbed(st.store, w.store, x, st.gens[x]);
      }
    }
    forall x | x in w.gens ensures Placed(w, x) { assert Placed(st, x); }
  }

  lemma StagedRowOk(st: State, w: State, id: string, ahead: seq<Token>)
    requires w == st.(store := st.store.(pool := w.store.pool)) && id in st.gens && RowOk(st.store, id, st.gens[id])
    requires Staged(w, id, ahead)
    ensures RowOk(w.store, id, w.gens[id])
  {
    hide Stored, KvOf;
    var whole := Context(w, id) + ahead;
    assert whole[..|Context(w, id)|] == Context(w, id);
    StoredPrefix(w.store.pool, w.store.size, w.store.tables[id].blocks, whole, |Context(w, id)|);
  }

  lemma LaunchIsConsistent(st: State, w: State, rows: seq<Plan>, dummy: string, predict: seq<Slot> -> Token)
    requires Consistent(st.store, predict) && OwnPagesOnly(st, w, rows, dummy)
    ensures Consistent(w.store, predict) && w == st.(store := st.store.(pool := w.store.pool))
  {
    hide EntryHolds, Exclusive, CatalogHolds;
    var s, after := st.store, w.store;
    forall b: nat | b < |s.pool| && CacheHolders(s.owned, b) != {} ensures after.pool[b] == s.pool[b] {
      if after.pool[b] != s.pool[b] {
        var x :| x in RowIds(rows) + (st.reserved * {dummy}) && Holders(s.owned, b) == {Request(x)};
        PrivateIsElsewhere(s.owned, x, b);
        assert false;
      }
    }
    assert CatalogHolds(after) by { CatalogFollows(s, after); }
    forall key | key in after.exact ensures EntryHolds(after, key, predict) { EntryFollows(s, after, key, predict); }
    forall id | id in after.tables ensures Exclusive(after, id) { ExclusiveIgnoresPool(s, after, id); }
  }

  lemma CatalogFollows(s: Store, w: Store)
    requires CatalogHolds(s) && CacheAlive(s) && w == s.(pool := w.pool) && |w.pool| == |s.pool|
    requires forall b: nat | b < |s.pool| && CacheHolders(s.owned, b) != {} :: w.pool[b] == s.pool[b]
    ensures CatalogHolds(w)
  {
    hide CacheHolders;
  }

  // ---- one prefill or verification launch --------------------------------------------------

  // The staged chunk of a ready row.
  function Chunk<V>(table: Table, padding: nat, count: nat, vectors: seq<V>): ChunkRow<V> {
    ChunkRow(Padded(table.blocks, padding), table.length, count, vectors)
  }

  // The rows of a prefill or verification batch as they are staged, each with its own pages.
  ghost predicate ChunkRows<V>(st: State, rows: seq<Plan>, chunks: seq<ChunkRow<V>>, tables: seq<seq<nat>>) {
    && DistinctRows(rows) && |chunks| == |tables| == |rows|
    && forall r | 0 <= r < |rows| ::
         && Ready(st, rows[r].id, rows[r].count) && tables[r] == st.store.tables[rows[r].id].blocks
         && rows[r].count <= |chunks[r].vectors|
         && exists padding: nat ::
              chunks[r] == Chunk(st.store.tables[rows[r].id], padding, rows[r].count, chunks[r].vectors)
  }

  // Ready rows of a prefill or verification batch may share pages, but none writes to a page of
  // another.
  lemma ReadyChunksApart<V>(st: State, rows: seq<Plan>, chunks: seq<ChunkRow<V>>, tables: seq<seq<nat>>,
                            predict: seq<Slot> -> Token, eos: set<Token>)
    requires Inv(st, predict, eos) && ChunkRows(st, rows, chunks, tables)
    ensures st.store.size > 0 && RowsApart(chunks, tables, st.store.size, |st.store.pool|)
  {
    hide Inv, Ready, Holders, Chunk, ChunkFits, WritesPage;
    assert st.store.size > 0 by { StoreSize(st, predict, eos); }
    forall r | 0 <= r < |rows| ensures ChunkFits(chunks[r], tables[r], st.store.size, |st.store.pool|) {
      ReadyChunkFits(st, rows[r], chunks[r], predict, eos);
    }
    forall q, r, b | 0 <= q < |rows| && 0 <= r < |rows| && q != r && b in tables[q]
      ensures !WritesPage(chunks[r], tables[r], st.store.size, b)
    {
      assert rows[q].id != rows[r].id;
      NotWritten(st, rows[q], rows[r], chunks[r], b, predict, eos);
    }
  }

  // The vectors of a chunk are those of the next tokens in the row's own context.
  ghost predicate OwnVectors(st: State, plan: Plan, chunk: ChunkRow<Slot>, ahead: seq<Token>) {
    && plan.id in st.gens && plan.id in st.store.tables && |ahead| == plan.count == chunk.count <= |chunk.vectors|
    && st.store.tables[plan.id].length <= |st.gens[plan.id].Tokens()|
    && KvOf(Context(st, plan.id)) + chunk.vectors[..chunk.count] == KvOf(Context(st, plan.id) + ahead)
  }

  // A launch over the chunks of ready rows, in any order of its programs, stages every row with
  // its whole chunk; nobody else notices, and the invariant holds.
  lemma ChunkLaunchStages(st: State, w: State, rows: seq<Plan>, chunks: seq<ChunkRow<Slot>>, tables: seq<seq<nat>>,
                          aheads: seq<seq<Token>>, predict: seq<Slot> -> Token, eos: set<Token>)
    requires Inv(st, predict, eos) && ChunkRows(st, rows, chunks, tables)
    requires |aheads| == |rows| && forall r | 0 <= r < |rows| :: OwnVectors(st, rows[r], chunks[r], aheads[r])
    requires w == st.(store := st.store.(pool := w.store.pool))
    requires ChunksLaunched(st.store.pool, w.store.pool, chunks, st.store.size)
    ensures Inv(w, predict, eos)
    ensures forall r | 0 <= r < |rows| :: Staged(w, rows[r].id, aheads[r])
    ensures forall x | x in st.active && x !in RowIds(rows) :: Undisturbed(st.store, w.store, x)
  {
    hide Inv, Staged, Ready, ChunksLaunched, KvOf, Undisturbed, OwnPagesOnly, RowsApart, OwnVectors, Chunk;
    ReadyChunksApart(st, rows, chunks, tables, predict, eos);
    ChunksAreOwn(st, w, rows, chunks, tables, predict, eos);
    forall r | 0 <= r < |rows| ensures Staged(w, rows[r].id, aheads[r]) {
      RowFacts(st, rows[r].id, rows[r].count, predict, eos);
      ChunkStart(st, rows[r], chunks[r]);
      PrefillBatchStores(st.store.pool, w.store.pool, chunks, tables, st.store.size, r, KvOf(Context(st, rows[r].id)));
      ChunkIsStaged(st, w, rows[r], chunks[r], aheads[r], predict, eos);
    }
    forall x | x in st.active && x !in RowIds(rows) ensures Undisturbed(st.store, w.store, x) {
      OthersUnwritten(st, w, rows, DUMMY_ROWS, x, predict, eos);
    }
    LaunchKeepsInv(st, w, rows, aheads, DUMMY_ROWS, predict, eos);
  }

  lemma ChunkStart<V>(st: State, plan: Plan, chunk: ChunkRow<V>)
    requires plan.id in st.store.tables
    requires exists padding: nat :: chunk == Chunk(st.store.tables[plan.id], padding, plan.count, chunk.vectors)
    ensures chunk.start == st.store.tables[plan.id].length
    ensures plan.count <= |chunk.vectors| ==> chunk.count <= |chunk.vectors|
  {
  }

  lemma ChunkIsStaged(st: State, w: State, plan: Plan, chunk: ChunkRow<Slot>, ahead: seq<Token>,
                      predict: seq<Slot> -> Token, eos: set<Token>)
    requires Inv(st, predict, eos) && Ready(st, plan.id, plan.count) && OwnVectors(st, plan, chunk, ahead)
    requires w == st.(store := st.store.(pool := w.store.pool))
    requires Stored(w.store.pool, w.store.size, w.store.tables[plan.id].blocks,
                    KvOf(Context(st, plan.id)) + chunk.vectors[..chunk.count])
    ensures Staged(w, plan.id, ahead)
  {
    hide Inv, Ready, Stored, KvOf;
    ReadyIgnoresPool(st, w, plan.id, plan.count);
  }

  lemma ChunksAreOwn(st: State, w: State, rows: seq<Plan>, chunks: seq<ChunkRow<Slot>>, tables: seq<seq<nat>>,
                        predict: seq<Slot> -> Token, eos: set<Token>)
    requires Inv(st, predict, eos) && ChunkRows(st, rows, chunks, tables)
    requires RowsApart(chunks, tables, st.store.size, |st.store.pool|)
    requires w == st.(store := st.store.(pool := w.store.pool))
    requires ChunksLaunched(st.store.pool, w.store.pool, chunks, st.store.size)
    ensures OwnPagesOnly(st, w, rows, DUMMY_ROWS)
  {
    hide Inv, Ready, ChunksLaunched, Holders, RowsApart, HeldByOne, Chunk;
    StoreSize(st, predict, eos);
    LaunchedShape(st.store.pool, w.store.pool, chunks, st.store.size);
    forall b: nat | b < |st.store.pool| && w.store.pool[b] != st.store.pool[b]
      ensures HeldByOne(st.store.owned, b, RowIds(rows) + (st.reserved * {DUMMY_ROWS}))
    {
      var r := WriterOf(st.store.pool, w.store.pool, chunks, tables, st.store.size, b);
      WriterOwns(st, rows[r], chunks[r], b, predict, eos);
      assert rows[r] in rows && rows[r].id in RowIds(rows);
      HeldBy(st.store.owned, b, RowIds(rows) + (st.reserved * {DUMMY_ROWS}), rows[r].id);
    }
  }

  lemma HeldBy(owned: Ledger, b: nat, ids: set<string>, id: string)
    requires id in ids && Holders(owned, b) == {Request(id)}
    ensures HeldByOne(owned, b, ids)
  {
  }

  // A page a row of the launch writes belongs to that row alone.
  lemma WriterOwns<V>(st: State, writer: Plan, chunk: ChunkRow<V>, b: nat, predict: seq<Slot> -> Token, eos: set<Token>)
    requires Inv(st, predict, eos) && Ready(st, writer.id, writer.count) && st.store.size > 0
    requires exists padding: nat :: chunk == Chunk(st.store.tables[writer.id], padding, writer.count, chunk.vectors)
    requires WritesPage(chunk, st.store.tables[writer.id].blocks, st.store.size, b)
    ensures Holders(st.store.owned, b) == {Request(writer.id)}
  {
    hide Inv, Holders;
    var t: nat :| t < chunk.count && PageOfToken(chunk, st.store.tables[writer.id].blocks, st.store.size, t, b);
    WrittenPage(st, writer.id, writer.count, chunk.start + t, predict, eos);
  }

  lemma StoreSize(st: State, predict: seq<Slot> -> Token, eos: set<Token>)
    requires Inv(st, predict, eos)
    ensures st.store.size > 0
  {
  }

  lemma ReadyChunkFits<V>(st: State, plan: Plan, chunk: ChunkRow<V>, predict: seq<Slot> -> Token, eos: set<Token>)
    requires Inv(st, predict, eos) && Ready(st, plan.id, plan.count) && plan.count <= |chunk.vectors|
    requires exists padding: nat :: chunk == Chunk(st.store.tables[plan.id], padding, plan.count, chunk.vectors)
    ensures ChunkFits(chunk, st.store.tables[plan.id].blocks, st.store.size, |st.store.pool|)
  {
    hide Exclusive, CacheAlive, CatalogHolds, EntryHolds, GenOk, RowOk, AllPrivate;
    TablePagesInPool(st.store, plan.id);
  }

  lemma NotWritten<V>(st: State, reader: Plan, writer: Plan, chunk: ChunkRow<V>, b: nat, predict: seq<Slot> -> Token,
                      eos: set<Token>)
    requires Inv(st, predict, eos) && Ready(st, writer.id, writer.count) && Ready(st, reader.id, reader.count)
    requires reader.id != writer.id && b in st.store.tables[reader.id].blocks
    requires exists padding: nat :: chunk == Chunk(st.store.tables[writer.id], padding, writer.count, chunk.vectors)
    ensures st.store.size > 0 && !WritesPage(chunk, st.store.tables[writer.id].blocks, st.store.size, b)
  {
    hide Inv, Holders;
    HeldElsewhere(st, reader.id, b, predict, eos);
    forall t: nat | t < chunk.count
      ensures !PageOfToken(chunk, st.store.tables[writer.id].blocks, st.store.size, t, b)
    {
      WrittenPage(st, writer.id, writer.count, chunk.start + t, predict, eos);
    }
  }
}
