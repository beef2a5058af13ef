// Addressing and masking of the pool write kernels (engine/kernels/kv_write.py) and the host
// staging of a decode batch (engine/batching/continuous_batching.py).
module KvWrites {
  import opened Common
  import opened Paging

  // What one program of a kernel stores: nothing if it is masked off.
  datatype Write<V> = Write(at: Option<(nat, nat)>, value: V)

  // Where a token goes. A position past the table, or an entry that is not a page, is masked.
  function Destination(table: seq<int>, position: nat, size: nat, pages: nat): (r: Option<(nat, nat)>)
    requires size > 0
    ensures r.Some? ==> r.value.0 < pages && r.value.1 < size
  {
    var k := position / size;
    DivBounds(position, size);
    if k < |table| && 0 <= table[k] < pages then Some((table[k], position % size)) else None
  }

  // No two programs store to one address.
  ghost predicate RaceFree<V>(writes: seq<Write<V>>) {
    forall i, j | 0 <= i < j < |writes| && writes[i].at.Some? :: writes[i].at != writes[j].at
  }

  ghost predicate InPool<V>(writes: seq<Write<V>>, pages: nat, size: nat) {
    forall i | 0 <= i < |writes| && writes[i].at.Some? :: writes[i].at.value.0 < pages && writes[i].at.value.1 < size
  }

  // All stores done, everything else as before.
  ghost predicate AllStored<V>(before: Pages<V>, after: Pages<V>, writes: seq<Write<V>>, size: nat) {
    && |after| == |before| && Rectangular(before, size) && Rectangular(after, size) && InPool(writes, |before|, size)
    && (forall i | 0 <= i < |writes| && writes[i].at.Some? ::
          after[writes[i].at.value.0][writes[i].at.value.1] == writes[i].value)
    && (forall b, s | 0 <= b < |before| && 0 <= s < size && !Hit(writes, b, s) :: after[b][s] == before[b][s])
  }

  ghost predicate Hit<V>(writes: seq<Write<V>>, b: nat, s: nat) {
    exists i | 0 <= i < |writes| :: writes[i].at == Some((b, s))
  }

  // The outcome does not depend on how the programs interleave.
  lemma OneOutcome<V>(before: Pages<V>, a: Pages<V>, b: Pages<V>, writes: seq<Write<V>>, size: nat)
    requires AllStored(before, a, writes, size) && AllStored(before, b, writes, size)
    ensures a == b
  {
    forall p | 0 <= p < |before| ensures a[p] == b[p] {
      forall s | 0 <= s < size ensures a[p][s] == b[p][s] {
        if Hit(writes, p, s) {
          var i :| 0 <= i < |writes| && writes[i].at == Some((p, s));
          assert a[writes[i].at.value.0][writes[i].at.value.1] == b[writes[i].at.value.0][writes[i].at.value.1];
        }
      }
    }
  }

  // Runs the programs of one launch, in any order that runs each of them.
  method Launch<V>(pages: Pages<V>, writes: seq<Write<V>>, size: nat, order: seq<nat>) returns (after: Pages<V>)
    requires Rectangular(pages, size) && InPool(writes, |pages|, size) && RaceFree(writes)
    requires (forall i | i in order :: i < |writes|) && forall i: nat | i < |writes| :: i in order
    ensures AllStored(pages, after, writes, size)
  {
    after := pages;
    for k := 0 to |order|
      invariant |after| == |pages| && Rectangular(after, size)
      invariant forall i | 0 <= i < |writes| && i in order[..k] && writes[i].at.Some? ::
                  after[writes[i].at.value.0][writes[i].at.value.1] == writes[i].value
      invariant forall b, s | 0 <= b < |pages| && 0 <= s < size && !Hit(writes, b, s) :: after[b][s] == pages[b][s]
    {
      assert order[k] in order && order[..k + 1] == order[..k] + [order[k]];
      var w := writes[order[k]];
      if w.at.Some? {
        assert Hit(writes, w.at.value.0, w.at.value.1);
        forall i | 0 <= i < |writes| && i != order[k] ensures writes[i].at != w.at {
          if i < order[k] { assert writes[i].at.None? || writes[i].at != writes[order[k]].at; }
        }
        after := SetSlot(after, w.at.value.0, w.at.value.1, w.value);
      }
    }
    assert order[..|order|] == order;
  }

  // ---- decode -----------------------------------------------------------------------------

  // The programs of a decode launch: each row writes its next token's vector.
  function DecodeWrites<V>(tables: seq<seq<int>>, lengths: seq<nat>, vectors: seq<V>, size: nat,
                           pages: nat): (r: seq<Write<V>>)
    requires size > 0 && |tables| == |lengths| == |vectors|
    ensures |r| == |vectors|
    ensures forall i | 0 <= i < |r| :: r[i] == Write(Destination(tables[i], lengths[i], size, pages), vectors[i])
  {
    seq(|vectors|, i requires 0 <= i < |vectors| => Write(Destination(tables[i], lengths[i], size, pages), vectors[i]))
  }

  // A request as a decode batch sees it: its table and its pending input, if it has one.
  datatype LiveRow = LiveRow(table: Table, pending: Option<Token>)

  // The slot of a padded row: slot i % size of the i / size-th reserved page.
  function DummySlot(pages: seq<nat>, size: nat, i: nat): (r: (nat, nat))
    requires size > 0 && i < |pages| * size
    ensures r.0 in pages && r.1 < size
  {
    var (k, slot) := PageAndSlot(i, |pages|, size);
    assert pages[k] in pages;
    (pages[k], slot)
  }

  // Slots for padded rows.
  function DummySlots(pages: seq<nat>, size: nat, rows: nat): (r: seq<(nat, nat)>)
    requires size > 0 && rows <= |pages| * size
    ensures |r| == rows
    ensures forall i | 0 <= i < rows :: r[i] == DummySlot(pages, size, i)
  {
    seq(rows, i requires 0 <= i < rows => DummySlot(pages, size, i))
  }

  lemma DummySlotsWithin(pages: seq<nat>, size: nat, rows: nat)
    requires size > 0 && rows <= |pages| * size
    ensures forall i | 0 <= i < rows ::
              DummySlots(pages, size, rows)[i].0 in pages && DummySlots(pages, size, rows)[i].1 < size
  {
    hide DummySlot;
    forall i | 0 <= i < rows
      ensures DummySlots(pages, size, rows)[i].0 in pages && DummySlots(pages, size, rows)[i].1 < size
    {
      assert DummySlots(pages, size, rows)[i] == DummySlot(pages, size, i);
    }
  }

  // Padded rows never share a slot.
  lemma DummySlotsDistinct(pages: seq<nat>, size: nat, rows: nat)
    requires size > 0 && rows <= |pages| * size && Distinct(pages)
    ensures Distinct(DummySlots(pages, size, rows))
  {
    hide DummySlots;
    var slots := DummySlots(pages, size, rows);
    forall i, j | 0 <= i < j < rows ensures slots[i] != slots[j] { TwoDummySlots(pages, size, i, j); }
  }

  lemma TwoDummySlots(pages: seq<nat>, size: nat, i: nat, j: nat)
    requires size > 0 && i < j < |pages| * size && Distinct(pages)
    ensures DummySlot(pages, size, i) != DummySlot(pages, size, j)
  {
    hide PageAndSlot;
    assert PageAndSlot(i, |pages|, size) != PageAndSlot(j, |pages|, size);
  }

  // The persistent host buffers of a decode batch. Rows keep whatever columns an earlier
  // batch left in them.
  class DecodeStaging {
    const maxActive: nat
    const width: nat
    var inputs: seq<Token>
    var lengths: seq<nat>
    var tables: seq<seq<int>>

    ghost predicate Valid()
      reads this
    {
      |inputs| == |lengths| == |tables| == maxActive && forall row | 0 <= row < maxActive :: |tables[row]| == width
    }

    constructor (maxActive: nat, width: nat)
      ensures Valid() && this.maxActive == maxActive && this.width == width
    {
      this.maxActive, this.width := maxActive, width;
      inputs, lengths := seq(maxActive, _ => 0), seq(maxActive, _ => 0);
      tables := seq(maxActive, _ => seq(width, _ => 0));
    }

    // Stages the live rows, then dummy rows up to the bucket size.
    method Prepare(live: seq<LiveRow>, bucket: Option<nat>, slots: seq<(nat, nat)>, size: nat, pad: Token)
      returns (r: Reply<nat>)
      requires Valid() && width > 0
      modifies this
      ensures Valid() && !r.Exhausted?
      ensures r.Ok? <==>
        && |live| <= maxActive
        && (forall i | 0 <= i < |live| ::
              && live[i].pending.Some? && live[i].table.length < |live[i].table.blocks| * size
              && |live[i].table.blocks| <= width)
        && (bucket.Some? && bucket.value > 0 ==>
              |live| <= bucket.value <= maxActive && bucket.value <= |live| + |slots|)
      ensures r.Ok? && bucket.Some? && bucket.value > 0 ==> r.value == bucket.value
      ensures r.Ok? && (bucket.None? || bucket.value == 0) ==> r.value == |live|
      ensures r.Ok? ==> Staged(live, r.value, slots, pad, old(tables))
    {
      var rows := if bucket.None? || bucket.value == 0 then |live| else bucket.value;
      if |live| > maxActive || rows < |live| || rows > maxActive {
        return Raised;
      }
      for i := 0 to |live|
        invariant forall k | 0 <= k < i :: Stageable(live[k], size, width)
      {
        if !Stageable(live[i], size, width) {
          return Raised;
        }
      }
      if |slots| < rows - |live| {
        return Raised;
      }
      ghost var stale := tables;
      for row := 0 to rows
        invariant Valid()
        invariant forall k | 0 <= k < row :: RowHolds(live, k, slots, pad, stale[k], inputs[k], lengths[k], tables[k])
        invariant forall k | row <= k < maxActive :: tables[k] == stale[k]
      {
        if row < |live| {
          var table := live[row].table;
          inputs, lengths := inputs[row := live[row].pending.value], lengths[row := table.length];
          tables := tables[row := table.blocks + tables[row][|table.blocks|..]];
        } else {
          var slot := slots[row - |live|];
          inputs, lengths := inputs[row := pad], lengths[row := slot.1];
          tables := tables[row := tables[row][0 := slot.0]];
        }
      }
      return Ok(rows);
    }

    ghost predicate Staged(live: seq<LiveRow>, rows: nat, slots: seq<(nat, nat)>, pad: Token, stale: seq<seq<int>>)
      requires |live| <= rows <= maxActive && rows - |live| <= |slots| && |stale| == maxActive
      reads this
    {
      Valid() && forall row | 0 <= row < rows ::
        RowHolds(live, row, slots, pad, stale[row], inputs[row], lengths[row], tables[row])
    }
  }

  // One staged row: fresh columns first, the rest as an earlier batch left it.
  ghost predicate RowHolds(live: seq<LiveRow>, row: nat, slots: seq<(nat, nat)>, pad: Token, stale: seq<int>,
                           input: Token, length: nat, table: seq<int>)
    requires row < |live| + |slots|
  {
    if row < |live|
    then && live[row].pending == Some(input) && length == live[row].table.length
         && |live[row].table.blocks| <= |stale|
         && table == live[row].table.blocks + stale[|live[row].table.blocks|..]
    else && input == pad && length == slots[row - |live|].1 && stale != []
         && table == stale[0 := slots[row - |live|].0]
  }

  // A row that the device can serve: it has an input and a slot for it.
  predicate Stageable(row: LiveRow, size: nat, width: nat) {
    row.pending.Some? && row.table.length < row.table.Capacity(size) && |row.table.blocks| <= width
  }

  // A live row writes where its table says and reads no stale column.
  lemma StaleColumnsUnread(table: Table, stale: seq<int>, size: nat, pages: nat)
    requires size > 0 && table.length < table.Capacity(size) && forall b | b in table.blocks :: b < pages
    ensures Destination(table.blocks + stale, table.length, size, pages) == table.Location(size, table.length)
  {
    DivBounds(table.length, size);
    MulLess(table.length / size, |table.blocks|, size);
    assert table.blocks[table.length / size] in table.blocks;
  }

  // What the engine's bookkeeping guarantees about the pages a decode batch writes: every live
  // row's page is its own, and the dummy pages belong to nobody else.
  ghost predicate OwnPages(live: seq<LiveRow>, slots: seq<(nat, nat)>, size: nat, pages: nat)
    requires size > 0
  {
    && (forall i | 0 <= i < |live| ::
          live[i].table.length < live[i].table.Capacity(size) && forall b | b in live[i].table.blocks :: b < pages)
    && (forall i, j | 0 <= i < j < |live| :: WritePage(live[i], size) != WritePage(live[j], size))
    && (forall i, k | 0 <= i < |live| && 0 <= k < |slots| :: WritePage(live[i], size) != slots[k].0)
    && Distinct(slots) && forall k | 0 <= k < |slots| :: slots[k].0 < pages && slots[k].1 < size
  }

  function WritePage(row: LiveRow, size: nat): nat
    requires size > 0
  {
    var at := row.table.Location(size, row.table.length);
    if at.Some? then at.value.0 else 0
  }

  // The programs of a decode launch: a live row writes behind its last token, a padded row its
  // own dummy slot.
  ghost predicate Launched<V>(writes: seq<Write<V>>, live: seq<LiveRow>, slots: seq<(nat, nat)>, vectors: seq<V>,
                              size: nat)
    requires size > 0
  {
    && |live| <= |writes| == |vectors| && |writes| - |live| <= |slots|
    && (forall i | 0 <= i < |live| ::
          writes[i] == Write(live[i].table.Location(size, live[i].table.length), vectors[i]))
    && (forall i | |live| <= i < |writes| :: writes[i] == Write(Some(slots[i - |live|]), vectors[i]))
  }

  // Race freedom: over live and padded rows together, all destinations differ, so the parallel
  // launch does what writing row by row in any order does.
  lemma DecodeIsRaceFree<V>(staging: DecodeStaging, live: seq<LiveRow>, rows: nat, slots: seq<(nat, nat)>, pad: Token,
                            stale: seq<seq<int>>, vectors: seq<V>, size: nat, pages: nat)
    requires size > 0 && |live| <= rows <= staging.maxActive && rows - |live| <= |slots| && |stale| == staging.maxActive
    requires staging.Staged(live, rows, slots, pad, stale) && OwnPages(live, slots, size, pages) && |vectors| == rows
    ensures |staging.tables[..rows]| == |staging.lengths[..rows]| == rows
    ensures var writes := DecodeWrites(staging.tables[..rows], staging.lengths[..rows], vectors, size, pages);
            RaceFree(writes) && InPool(writes, pages, size) && Launched(writes, live, slots, vectors, size)
  {
    var writes := DecodeWrites(staging.tables[..rows], staging.lengths[..rows], vectors, size, pages);
    forall i | 0 <= i < rows
      ensures i < |live| ==> writes[i].at == live[i].table.Location(size, live[i].table.length)
      ensures i >= |live| ==> writes[i].at == Some(slots[i - |live|])
    {
      assert RowHolds(live, i, slots, pad, stale[i], staging.inputs[i], staging.lengths[i], staging.tables[i]);
      if i < |live| {
        StaleColumnsUnread(live[i].table, stale[i][|live[i].table.blocks|..], size, pages);
      } else {
        DivUnique(slots[i - |live|].1, size, 0);
      }
    }
    forall i, j | 0 <= i < j < rows && writes[i].at.Some? ensures writes[i].at != writes[j].at {
      if j < |live| { assert WritePage(live[i], size) != WritePage(live[j], size); }
    }
  }

  // One launch extends the stored run of a live row by exactly its own vector.
  lemma DecodeBatchStores<V>(before: Pages<V>, after: Pages<V>, writes: seq<Write<V>>, live: seq<LiveRow>,
                             slots: seq<(nat, nat)>, vectors: seq<V>, size: nat, r: nat, values: seq<V>)
    requires size > 0 && Launched(writes, live, slots, vectors, size) && OwnPages(live, slots, size, |before|)
    requires AllStored(before, after, writes, size) && r < |live| && Distinct(live[r].table.blocks)
    requires Stored(before, size, live[r].table.blocks, values) && |values| == live[r].table.length
    requires forall i | 0 <= i < |live| && i != r :: WritePage(live[i], size) !in live[r].table.blocks
    requires forall k | 0 <= k < |slots| :: slots[k].0 !in live[r].table.blocks
    ensures Stored(after, size, live[r].table.blocks, values + [vectors[r]])
  {
    hide AllStored, OwnPages, Stored, RowWrites;
    var table := live[r].table;
    assert table.length < table.Capacity(size) && forall b | b in table.blocks :: b < |before| by {
      LiveRowFits(live, slots, size, |before|, r);
    }
    var row := ChunkRow(Padded(table.blocks, 0), table.length, 1, [vectors[r]]);
    var nothing: seq<int> := [];
    StaleColumnsUnread(table, nothing, size, |before|);
    assert table.blocks + nothing == row.table;
    assert RowWrites(row, size, |before|) == [writes[r]];
    forall w | w in writes && w.at.Some? && w.at.value.0 in table.blocks ensures w == writes[r] {
      var i :| 0 <= i < |writes| && writes[i] == w;
      assert i < |live| ==> w.at.value.0 == WritePage(live[i], size);
    }
    ChunkIsStored(before, after, writes, row, table.blocks, size, values);
    assert row.vectors[..row.count] == [vectors[r]];
  }

  lemma LiveRowFits(live: seq<LiveRow>, slots: seq<(nat, nat)>, size: nat, pages: nat, r: nat)
    requires size > 0 && OwnPages(live, slots, size, pages) && r < |live|
    ensures live[r].table.length < live[r].table.Capacity(size) && forall b | b in live[r].table.blocks :: b < pages
  {
  }

  // And leaves every page that no row writes as it is.
  lemma OtherPagesKept<V>(before: Pages<V>, after: Pages<V>, writes: seq<Write<V>>, live: seq<LiveRow>,
                          slots: seq<(nat, nat)>, vectors: seq<V>, size: nat, b: nat)
    requires size > 0 && Launched(writes, live, slots, vectors, size) && AllStored(before, after, writes, size)
    requires b < |before|
    requires forall i | 0 <= i < |live| ::
               live[i].table.length < live[i].table.Capacity(size) && WritePage(live[i], size) != b
    requires forall k | 0 <= k < |slots| :: slots[k].0 != b
    ensures after[b] == before[b]
  {
    forall s | 0 <= s < size ensures after[b][s] == before[b][s] {
      forall i | 0 <= i < |writes| ensures writes[i].at != Some((b, s)) {
        assert i < |live| ==> writes[i].at.Some? && writes[i].at.value.0 == WritePage(live[i], size);
      }
      assert !Hit(writes, b, s);
    }
  }

  // ---- prefill ----------------------------------------------------------------------------

  // One row of a prefill launch: `count` of its padded vectors are real, from `start` on.
  datatype ChunkRow<V> = ChunkRow(table: seq<int>, start: nat, count: nat, vectors: seq<V>)

  function RowWrites<V>(row: ChunkRow<V>, size: nat, pages: nat): (r: seq<Write<V>>)
    requires size > 0
    ensures |r| == |row.vectors|
    ensures forall t | 0 <= t < |r| ::
              r[t] == Write(if t < row.count then Destination(row.table, row.start + t, size, pages) else None,
                            row.vectors[t])
  {
    seq(|row.vectors|, t requires 0 <= t < |row.vectors| =>
      Write(if t < row.count then Destination(row.table, row.start + t, size, pages) else None, row.vectors[t]))
  }

  // The programs of a prefill launch, row after row.
  function PrefillWrites<V>(rows: seq<ChunkRow<V>>, size: nat, pages: nat): seq<Write<V>>
    requires size > 0
  {
    if rows == [] then [] else PrefillWrites(rows[..|rows| - 1], size, pages) + RowWrites(rows[|rows| - 1], size, pages)
  }

  // A row whose table starts with its own distinct pages, the rest being the -1 padding, and
  // whose chunk fits.
  ghost predicate ChunkFits<V>(row: ChunkRow<V>, blocks: seq<nat>, size: nat, pages: nat) {
    && Distinct(blocks) && (forall b | b in blocks :: b < pages) && size > 0
    && |blocks| <= |row.table| && (forall k | 0 <= k < |blocks| :: row.table[k] == blocks[k])
    && row.count <= |row.vectors| && row.start + row.count <= |blocks| * size
  }

  lemma ChunkTarget<V>(row: ChunkRow<V>, blocks: seq<nat>, size: nat, pages: nat, t: nat)
    requires ChunkFits(row, blocks, size, pages) && t < row.count
    ensures (row.start + t) / size < |blocks|
    ensures RowWrites(row, size, pages)[t].at == Some((blocks[(row.start + t) / size], (row.start + t) % size))
  {
    var position := row.start + t;
    DivBounds(position, size);
    MulLess(position / size, |blocks|, size);
    assert blocks[position / size] in blocks;
  }

  // Within a row no two tokens share a slot.
  lemma ChunkIsRaceFree<V>(row: ChunkRow<V>, blocks: seq<nat>, size: nat, pages: nat)
    requires ChunkFits(row, blocks, size, pages)
    ensures RaceFree(RowWrites(row, size, pages)) && InPool(RowWrites(row, size, pages), pages, size)
  {
    var writes := RowWrites(row, size, pages);
    forall i, j | 0 <= i < j < |writes| && writes[i].at.Some? ensures writes[i].at != writes[j].at {
      ChunkTarget(row, blocks, size, pages, i);
      if j < row.count {
        ChunkTarget(row, blocks, size, pages, j);
        DivBounds(row.start + i, size);
        DivBounds(row.start + j, size);
      }
    }
  }

  // A launch extends a row's stored run by exactly its chunk, whatever other rows it carries,
  // as long as they write to other pages.
  lemma ChunkIsStored<V>(before: Pages<V>, after: Pages<V>, writes: seq<Write<V>>, row: ChunkRow<V>, blocks: seq<nat>,
                         size: nat, values: seq<V>)
    requires ChunkFits(row, blocks, size, |before|) && AllStored(before, after, writes, size)
    requires Stored(before, size, blocks, values) && |values| == row.start
    requires forall t | 0 <= t < row.count :: RowWrites(row, size, |before|)[t] in writes
    requires forall w | w in writes && w.at.Some? && w.at.value.0 in blocks :: w in RowWrites(row, size, |before|)
    ensures Stored(after, size, blocks, values + row.vectors[..row.count])
  {
    var longer := values + row.vectors[..row.count];
    forall k | 0 <= k < |blocks| ensures blocks[k] < |after| && |after[blocks[k]]| == size {
      assert blocks[k] in blocks;
    }
    forall k, slot | 0 <= k < |blocks| && 0 <= slot < size && k * size + slot < |longer|
      ensures after[blocks[k]][slot] == longer[k * size + slot]
    {
      var position := k * size + slot;
      DivUnique(position, size, k);
      if position >= row.start {
        var t := position - row.start;
        ChunkTarget(row, blocks, size, |before|, t);
        var i :| 0 <= i < |writes| && writes[i] == RowWrites(row, size, |before|)[t];
        assert after[writes[i].at.value.0][writes[i].at.value.1] == writes[i].value;
      } else {
        EarlierSlotKept(before, writes, row, blocks, size, k, slot);
      }
    }
  }

  lemma EarlierSlotKept<V>(before: Pages<V>, writes: seq<Write<V>>, row: ChunkRow<V>, blocks: seq<nat>, size: nat,
                           k: nat, slot: nat)
    requires ChunkFits(row, blocks, size, |before|) && k < |blocks| && slot < size && k * size + slot < row.start
    requires forall w | w in writes && w.at.Some? && w.at.value.0 in blocks :: w in RowWrites(row, size, |before|)
    ensures !Hit(writes, blocks[k], slot)
  {
    forall i | 0 <= i < |writes| ensures writes[i].at != Some((blocks[k], slot)) {
      assert writes[i] in writes && blocks[k] in blocks;
      if writes[i] in RowWrites(row, size, |before|) {
        var t :| 0 <= t < |row.vectors| && RowWrites(row, size, |before|)[t] == writes[i];
        NeverEarlier(row, blocks, size, |before|, t, k, slot);
      }
    }
  }

  lemma NeverEarlier<V>(row: ChunkRow<V>, blocks: seq<nat>, size: nat, pages: nat, t: nat, k: nat, slot: nat)
    requires ChunkFits(row, blocks, size, pages) && t < |row.vectors|
    requires k < |blocks| && slot < size && k * size + slot < row.start
    ensures RowWrites(row, size, pages)[t].at != Some((blocks[k], slot))
  {
    if t < row.count {
      ChunkTarget(row, blocks, size, pages, t);
      DivUnique(k * size + slot, size, k);
      DivBounds(row.start + t, size);
    }
  }

  lemma {:induction false} WritesOfRows<V>(rows: seq<ChunkRow<V>>, size: nat, pages: nat)
    requires size > 0
    ensures forall w :: w in PrefillWrites(rows, size, pages) <==>
              exists r :: 0 <= r < |rows| && w in RowWrites(rows[r], size, pages)
  {
    if rows != [] {
      var rest, last := rows[..|rows| - 1], rows[|rows| - 1];
      WritesOfRows(rest, size, pages);
      forall w ensures w in PrefillWrites(rows, size, pages) <==>
        exists r :: 0 <= r < |rows| && w in RowWrites(rows[r], size, pages)
      {
        if w in PrefillWrites(rest, size, pages) {
          var r :| 0 <= r < |rest| && w in RowWrites(rest[r], size, pages);
          assert rows[r] == rest[r];
        }
        if exists r :: 0 <= r < |rows| && w in RowWrites(rows[r], size, pages) {
          var r :| 0 <= r < |rows| && w in RowWrites(rows[r], size, pages);
          if r < |rest| { assert rest[r] == rows[r]; }
        }
      }
    }
  }

  // The page is one the row's chunk goes to.
  ghost predicate WritesPage<V>(row: ChunkRow<V>, blocks: seq<nat>, size: nat, b: nat)
    requires size > 0
  {
    exists t: nat | t < row.count :: PageOfToken(row, blocks, size, t, b)
  }

  ghost predicate PageOfToken<V>(row: ChunkRow<V>, blocks: seq<nat>, size: nat, t: nat, b: nat)
    requires size > 0
  {
    (row.start + t) / size < |blocks| && blocks[(row.start + t) / size] == b
  }

  // No row writes to a page of another row. They may share pages they only read.
  ghost predicate RowsApart<V>(rows: seq<ChunkRow<V>>, tables: seq<seq<nat>>, size: nat, pages: nat) {
    && |tables| == |rows| && size > 0
    && (forall r | 0 <= r < |rows| :: ChunkFits(rows[r], tables[r], size, pages))
    && forall q, r, b | 0 <= q < |rows| && 0 <= r < |rows| && q != r && b in tables[q] ::
         !WritesPage(rows[r], tables[r], size, b)
  }

  lemma RowTargetsItsPages<V>(row: ChunkRow<V>, blocks: seq<nat>, size: nat, pages: nat, w: Write<V>)
    requires ChunkFits(row, blocks, size, pages) && w in RowWrites(row, size, pages) && w.at.Some?
    ensures WritesPage(row, blocks, size, w.at.value.0) && w.at.value.0 in blocks
  {
    hide ChunkFits, PageOfToken, Distinct;
    assert size > 0 by { ChunkSize(row, blocks, size, pages); }
    var t :| 0 <= t < |row.vectors| && RowWrites(row, size, pages)[t] == w;
    TokenTargetsItsPage(row, blocks, size, pages, t, w.at.value.0);
  }

  lemma ChunkSize<V>(row: ChunkRow<V>, blocks: seq<nat>, size: nat, pages: nat)
    requires ChunkFits(row, blocks, size, pages)
    ensures size > 0
  {
  }

  lemma TokenTargetsItsPage<V>(row: ChunkRow<V>, blocks: seq<nat>, size: nat, pages: nat, t: nat, b: nat)
    requires ChunkFits(row, blocks, size, pages) && t < row.count
    requires RowWrites(row, size, pages)[t].at.Some? && RowWrites(row, size, pages)[t].at.value.0 == b
    ensures PageOfToken(row, blocks, size, t, b) && b in blocks
  {
    ChunkTarget(row, blocks, size, pages, t);
  }

  lemma RaceFreeJoin<V>(a: seq<Write<V>>, b: seq<Write<V>>, pages: nat, size: nat)
    requires RaceFree(a) && RaceFree(b) && InPool(a, pages, size) && InPool(b, pages, size)
    requires forall v, w | v in a && w in b && v.at.Some? :: v.at != w.at
    ensures RaceFree(a + b) && InPool(a + b, pages, size)
  {
    var all := a + b;
    forall i, j | 0 <= i < j < |all| && all[i].at.Some? ensures all[i].at != all[j].at {
      if i < |a| <= j { assert all[i] in a && all[j] in b; }
    }
  }

  lemma LastRowApart<V>(rows: seq<ChunkRow<V>>, tables: seq<seq<nat>>, size: nat, pages: nat, v: Write<V>, w: Write<V>)
    requires RowsApart(rows, tables, size, pages) && rows != [] && v.at.Some?
    requires v in PrefillWrites(rows[..|rows| - 1], size, pages) && w in RowWrites(rows[|rows| - 1], size, pages)
    ensures v.at != w.at
  {
    var k := |rows| - 1;
    WritesOfRows(rows[..k], size, pages);
    var r :| 0 <= r < k && v in RowWrites(rows[..k][r], size, pages);
    RowTargetsItsPages(rows[r], tables[r], size, pages, v);
    if w.at.Some? { RowTargetsItsPages(rows[k], tables[k], size, pages, w); }
  }

  // A batch of such rows is race free.
  lemma {:induction false} PrefillIsRaceFree<V>(rows: seq<ChunkRow<V>>, tables: seq<seq<nat>>, size: nat, pages: nat)
    requires RowsApart(rows, tables, size, pages)
    ensures RaceFree(PrefillWrites(rows, size, pages)) && InPool(PrefillWrites(rows, size, pages), pages, size)
  {
    if rows != [] {
      hide RaceFree, InPool, RowWrites;
      var k := |rows| - 1;
      var early, late := PrefillWrites(rows[..k], size, pages), RowWrites(rows[k], size, pages);
      PrefillIsRaceFree(rows[..k], tables[..k], size, pages);
      ChunkIsRaceFree(rows[k], tables[k], size, pages);
      forall v, w | v in early && w in late && v.at.Some? ensures v.at != w.at {
        LastRowApart(rows, tables, size, pages, v, w);
      }
      RaceFreeJoin(early, late, pages, size);
    } else {
      NoRaces<V>(pages, size);
    }
  }

  lemma NoRaces<V>(pages: nat, size: nat)
    ensures RaceFree<V>([]) && InPool<V>([], pages, size)
  {
  }

  // All programs of a prefill launch are through.
  ghost predicate ChunksLaunched<V>(before: Pages<V>, after: Pages<V>, rows: seq<ChunkRow<V>>, size: nat) {
    size > 0 && AllStored(before, after, PrefillWrites(rows, size, |before|), size)
  }

  lemma LaunchedShape<V>(before: Pages<V>, after: Pages<V>, rows: seq<ChunkRow<V>>, size: nat)
    requires ChunksLaunched(before, after, rows, size)
    ensures |after| == |before| && forall b: nat | b < |after| :: |after[b]| == size
  {
    hide PrefillWrites;
  }

  // The launch extends every row's run by its own chunk.
  lemma PrefillBatchStores<V>(before: Pages<V>, after: Pages<V>, rows: seq<ChunkRow<V>>, tables: seq<seq<nat>>,
                              size: nat, r: nat, values: seq<V>)
    requires RowsApart(rows, tables, size, |before|) && r < |rows|
    requires ChunksLaunched(before, after, rows, size)
    requires Stored(before, size, tables[r], values) && |values| == rows[r].start
    ensures Stored(after, size, tables[r], values + rows[r].vectors[..rows[r].count])
  {
    var writes := PrefillWrites(rows, size, |before|);
    WritesOfRows(rows, size, |before|);
    forall w | w in writes && w.at.Some? && w.at.value.0 in tables[r] ensures w in RowWrites(rows[r], size, |before|) {
      var q :| 0 <= q < |rows| && w in RowWrites(rows[q], size, |before|);
      RowTargetsItsPages(rows[q], tables[q], size, |before|, w);
    }
    ChunkIsStored(before, after, writes, rows[r], tables[r], size, values);
  }

  // A page that changed was written by one of the rows.
  lemma WriterOf<V>(before: Pages<V>, after: Pages<V>, rows: seq<ChunkRow<V>>, tables: seq<seq<nat>>, size: nat, b: nat)
    returns (r: nat)
    requires RowsApart(rows, tables, size, |before|) && ChunksLaunched(before, after, rows, size)
    requires b < |before| == |after| && after[b] != before[b]
    ensures r < |rows| && WritesPage(rows[r], tables[r], size, b)
  {
    var writes := PrefillWrites(rows, size, |before|);
    var slot :| 0 <= slot < size && after[b][slot] != before[b][slot];
    assert Hit(writes, b, slot);
    var i :| 0 <= i < |writes| && writes[i].at == Some((b, slot));
    WritesOfRows(rows, size, |before|);
    assert writes[i] in writes;
    r :| 0 <= r < |rows| && writes[i] in RowWrites(rows[r], size, |before|);
    RowTargetsItsPages(rows[r], tables[r], size, |before|, writes[i]);
  }

  // A prompt written in chunks, each by its own launch in any order of programs. Every way of
  // splitting it gathers to the same run.
  method PrefillInChunks<V>(pages: Pages<V>, size: nat, blocks: seq<nat>, padding: nat, chunks: seq<seq<V>>)
    returns (after: Pages<V>)
    requires size > 0 && Rectangular(pages, size) && Distinct(blocks) && forall b | b in blocks :: b < |pages|
    requires |Flatten(chunks)| <= |blocks| * size
    ensures |after| == |pages| && Rectangular(after, size)
    ensures Gather(after, size, Table(blocks, |Flatten(chunks)|), |Flatten(chunks)|) == Some(Flatten(chunks))
  {
    after := pages;
    ghost var values: seq<V> := [];
    assert Stored(after, size, blocks, values) by { assert forall k | 0 <= k < |blocks| :: blocks[k] in blocks; }
    var start := 0;
    for i := 0 to |chunks|
      invariant |after| == |pages| && Rectangular(after, size)
      invariant start == |values| && values + Flatten(chunks[i..]) == Flatten(chunks)
      invariant Stored(after, size, blocks, values)
    {
      assert chunks[i..] == [chunks[i]] + chunks[i + 1..];
      assert values + Flatten(chunks[i..]) == (values + chunks[i]) + Flatten(chunks[i + 1..]);
      after := WriteChunk(after, size, blocks, padding, start, chunks[i], values);
      values := values + chunks[i];
      start := start + |chunks[i]|;
    }
    assert chunks[|chunks|..] == [];
    assert values == Flatten(chunks);
    StoredIsGathered(after, size, Table(blocks, |values|), values);
  }

  method WriteChunk<V>(pages: Pages<V>, size: nat, blocks: seq<nat>, padding: nat, start: nat, chunk: seq<V>,
                       ghost values: seq<V>)
    returns (after: Pages<V>)
    requires size > 0 && Rectangular(pages, size) && Distinct(blocks) && forall b | b in blocks :: b < |pages|
    requires Stored(pages, size, blocks, values) && |values| == start && start + |chunk| <= |blocks| * size
    ensures |after| == |pages| && Rectangular(after, size)
    ensures Stored(after, size, blocks, values + chunk)
  {
    var row := ChunkRow(Padded(blocks, padding), start, |chunk|, chunk);
    ChunkIsRaceFree(row, blocks, size, |pages|);
    var writes := RowWrites(row, size, |pages|);
    after := Launch(pages, writes, size, Upto(|writes|));
    ChunkIsStored(pages, after, writes, row, blocks, size, values);
    assert row.vectors[..row.count] == chunk;
  }

  // A staged table: the pages, then -1 in every column behind them.
  function Padded(blocks: seq<nat>, padding: nat): (r: seq<int>)
    ensures |r| == |blocks| + padding
    ensures forall k | 0 <= k < |r| :: r[k] == if k < |blocks| then blocks[k] else -1
  {
    seq<int>(|blocks| + padding, k requires 0 <= k < |blocks| + padding =>
      if k < |blocks| then blocks[k] as int else -1)
  }

  function Upto(n: nat): (r: seq<nat>)
    ensures |r| == n && (forall i | i in r :: i < n) && forall i: nat | i < n :: i in r
  {
    if n == 0 then [] else Upto(n - 1) + [n - 1]
  }
}
