// The growable paged layer of engine/cache/paged_cache.py and the page scatter and gather of
// engine/cache/paged_attention.py. Keys and values are laid out alike, so one value per token
// stands for both.
module PagedLayers {
  import opened Common
  import opened Paging

  function Pow2(n: nat): nat { if n == 0 then 1 else 2 * Pow2(n - 1) }

  lemma {:induction false} AtLeastInitial(initial: nat, growths: nat)
    ensures initial <= initial * Pow2(growths)
  {
    if growths > 0 {
      AtLeastInitial(initial, growths - 1);
      assert initial * (2 * Pow2(growths - 1)) == 2 * (initial * Pow2(growths - 1));
    }
  }

  function Identity(n: nat): (r: seq<nat>)
    ensures |r| == n && Distinct(r) && forall k | 0 <= k < n :: r[k] == k
  {
    seq(n, k requires 0 <= k < n => k)
  }

  function BlankPages<V>(n: nat, size: nat, zero: V): (r: Pages<V>)
    ensures |r| == n && Rectangular(r, size) && forall b, s | 0 <= b < n && 0 <= s < size :: r[b][s] == zero
  {
    seq(n, b requires 0 <= b < n => seq(size, s requires 0 <= s < size => zero))
  }

  // Doubling: after the first growth less than half of the capacity is unused.
  ghost predicate Grown(blocks: nat, initial: nat, growths: nat, size: nat, length: nat) {
    && blocks == initial * Pow2(growths)
    && (growths > 0 ==> blocks * size < 2 * length)
  }

  lemma DoublingGrows(blocks: nat, initial: nat, growths: nat, size: nat, required: nat)
    requires blocks == initial * Pow2(growths) && blocks * size < required && blocks > 0 && size > 0
    ensures blocks + blocks == initial * Pow2(growths + 1)
    ensures blocks * size < (blocks + blocks) * size < 2 * required
    ensures Grown(blocks + blocks, initial, growths + 1, size, required)
  {
    assert initial * (2 * Pow2(growths)) == 2 * (initial * Pow2(growths));
    assert (blocks + blocks) * size == blocks * size + blocks * size;
    MulMono(1, blocks, size);
  }

  lemma BlocksOfGrown(blocks: nat, initial: nat, growths: nat, size: nat, length: nat)
    requires Grown(blocks, initial, growths, size, length)
    ensures blocks == initial * Pow2(growths)
  {
  }

  lemma NothingStored<V>(pages: Pages<V>, initial: nat, size: nat)
    requires |pages| == initial && Rectangular(pages, size)
    ensures Stored(pages, size, Identity(|pages|), []) && Grown(|pages|, initial, 0, size, 0)
  {
  }

  lemma StoredLength<V>(pages: Pages<V>, size: nat, values: seq<V>)
    requires Stored(pages, size, Identity(|pages|), values)
    ensures |values| <= |pages| * size
  {
  }

  // More pages behind the stored ones do not disturb them.
  lemma MorePagesStillStore<V>(pages: Pages<V>, more: Pages<V>, size: nat, values: seq<V>)
    requires Stored(pages, size, Identity(|pages|), values) && Rectangular(more, size) && Rectangular(pages, size)
    ensures Stored(pages + more, size, Identity(|pages + more|), values) && Rectangular(pages + more, size)
  {
    MulMono(|pages|, |pages + more|, size);
    forall k, slot | 0 <= k < |pages + more| && 0 <= slot < size && k * size + slot < |values|
      ensures (pages + more)[k][slot] == values[k * size + slot]
    {
      MulLess(k, |pages|, size);
      assert pages[Identity(|pages|)[k]][slot] == values[k * size + slot];
    }
  }

  // Flattening all pages and cutting to the length is the reference gather over them.
  lemma FlattenIsGather<V>(pages: Pages<V>, size: nat, values: seq<V>)
    requires size > 0 && Rectangular(pages, size) && Stored(pages, size, Identity(|pages|), values)
    ensures |values| <= |Flatten(pages)| && Flatten(pages)[..|values|] == values
  {
    var table := Table(Identity(|pages|), |values|);
    assert Selected(pages, table.blocks) == pages;
    FlattenLength(pages, size);
    StoredIsGathered(pages, size, table, values);
  }

  class PagedLayer<V> {
    const blockSize: nat
    const initialBlocks: nat
    const zero: V
    var pages: Option<Pages<V>>
    var seqLen: nat
    var numGrowths: nat
    ghost var written: seq<V>

    ghost predicate Valid()
      reads this
    {
      && blockSize > 0 && initialBlocks > 0 && seqLen == |written|
      && match pages
         case None => written == [] && numGrowths == 0
         case Some(p) =>
           && Rectangular(p, blockSize) && Stored(p, blockSize, Identity(|p|), written)
           && Grown(|p|, initialBlocks, numGrowths, blockSize, seqLen)
    }

    constructor (blockSize: nat, initialBlocks: nat, zero: V)
      requires blockSize > 0 && initialBlocks > 0
      ensures Valid() && written == [] && this.blockSize == blockSize && this.initialBlocks == initialBlocks
    {
      this.blockSize, this.initialBlocks, this.zero := blockSize, initialBlocks, zero;
      pages, seqLen, numGrowths, written := None, 0, 0, [];
    }

    function NumBlocks(): nat
      reads this
    {
      if pages.None? then 0 else |pages.value|
    }

    // Stores new tokens behind the old ones and returns everything stored so far: any sequence
    // of updates gathers to the concatenation of its writes.
    method Update(values: seq<V>) returns (all: seq<V>)
      requires Valid()
      modifies this
      ensures Valid() && written == old(written) + values && all == written
      ensures NumBlocks() == initialBlocks * Pow2(numGrowths) && seqLen <= NumBlocks() * blockSize
      ensures numGrowths > 0 ==> NumBlocks() * blockSize < 2 * seqLen
    {
      hide Pow2, Stored, Flatten;
      if pages.None? {
        pages := Some(BlankPages(initialBlocks, blockSize, zero));
        NothingStored(pages.value, initialBlocks, blockSize);
      }
      Write(values);
      StoredLength(pages.value, blockSize, written);
      FlattenIsGather(pages.value, blockSize, written);
      all := Flatten(pages.value)[..seqLen];
    }

    // Adds physical pages, doubling, until they cover the required tokens.
    method GrowTo(required: nat)
      requires Valid() && pages.Some? && NumBlocks() * blockSize < required
      modifies `pages, `numGrowths
      ensures pages.Some? && Rectangular(pages.value, blockSize)
      ensures Stored(pages.value, blockSize, Identity(|pages.value|), written)
      ensures required <= |pages.value| * blockSize
      ensures Grown(|pages.value|, initialBlocks, numGrowths, blockSize, required)
    {
      hide Stored, Pow2, Grown, Rectangular;
      assert |pages.value| == initialBlocks * Pow2(numGrowths) by {
        BlocksOfGrown(|pages.value|, initialBlocks, numGrowths, blockSize, seqLen);
      }
      AtLeastInitial(initialBlocks, numGrowths);
      while NumBlocks() * blockSize < required
        invariant pages.Some? && Rectangular(pages.value, blockSize)
        invariant |pages.value| == initialBlocks * Pow2(numGrowths) && |pages.value| >= initialBlocks
        invariant || NumBlocks() * blockSize < required
                  || Grown(|pages.value|, initialBlocks, numGrowths, blockSize, required)
        invariant Stored(pages.value, blockSize, Identity(|pages.value|), written)
        decreases required - NumBlocks() * blockSize
      {
        var blocks := NumBlocks();
        var add := if initialBlocks > blocks then initialBlocks else blocks;
        var extra := BlankPages(add, blockSize, zero);
        DoublingGrows(blocks, initialBlocks, numGrowths, blockSize, required);
        MorePagesStillStore(pages.value, extra, blockSize, written);
        pages, numGrowths := Some(pages.value + extra), numGrowths + 1;
      }
    }

    method Write(values: seq<V>)
      requires Valid() && pages.Some?
      modifies this
      ensures Valid() && pages.Some? && written == old(written) + values
    {
      hide Stored;
      var start, end := seqLen, seqLen + |values|;
      if end > NumBlocks() * blockSize {
        GrowTo(end);
      }
      var blocks := |pages.value|;
      for i := 0 to |values|
        modifies `pages, `written
        invariant pages.Some? && |pages.value| == blocks && Rectangular(pages.value, blockSize)
        invariant written == old(written) + values[..i]
        invariant Stored(pages.value, blockSize, Identity(blocks), written)
      {
        var token := start + i;
        DivBounds(token, blockSize);
        MulLess(token / blockSize, blocks, blockSize);
        WriteAppends(pages.value, blockSize, Identity(blocks), written, token / blockSize, token % blockSize,
                     values[i]);
        pages := Some(SetSlot(pages.value, token / blockSize, token % blockSize, values[i]));
        written := written + [values[i]];
        assert values[..i + 1] == values[..i] + [values[i]];
      }
      assert values[..|values|] == values;
      seqLen := end;
    }
  }

  // ---- scatter and gather -----------------------------------------------------------------

  // Places every token at its block and offset; a token without a block, or a block outside
  // the pages, is an index error.
  method ScatterIntoPages<V>(kv: seq<V>, size: nat, blocks: seq<nat>, numPhysical: nat, zero: V)
    returns (r: Reply<Pages<V>>)
    requires size > 0
    ensures !r.Exhausted?
    ensures r.Ok? <==> |kv| <= |blocks| * size && forall t | 0 <= t < |kv| :: Placed(t, size, blocks, numPhysical)
    ensures r.Ok? ==> |r.value| == numPhysical && Rectangular(r.value, size)
    ensures r.Ok? && Distinct(blocks) && (forall b | b in blocks :: b < numPhysical) ==>
              Stored(r.value, size, blocks, kv)
  {
    var pages := BlankPages(numPhysical, size, zero);
    ghost var usable := Distinct(blocks) && forall b | b in blocks :: b < numPhysical;
    assert usable ==> Stored(pages, size, blocks, []) by {
      assert forall k | 0 <= k < |blocks| :: blocks[k] in blocks;
    }
    for t := 0 to |kv|
      invariant |pages| == numPhysical && Rectangular(pages, size) && t <= |blocks| * size
      invariant forall u | 0 <= u < t :: Placed(u, size, blocks, numPhysical)
      invariant usable ==> Stored(pages, size, blocks, kv[..t])
    {
      if t / size >= |blocks| || blocks[t / size] >= numPhysical {
        assert !Placed(t, size, blocks, numPhysical);
        return Raised;
      }
      PlacedFacts(t, size, blocks, numPhysical);
      if usable { OneScattered(pages, size, blocks, numPhysical, kv, t); }
      pages := SetSlot(pages, blocks[t / size], t % size, kv[t]);
    }
    assert kv[..|kv|] == kv;
    return Ok(pages);
  }

  lemma PlacedFacts(t: nat, size: nat, blocks: seq<nat>, numPhysical: nat)
    requires size > 0 && Placed(t, size, blocks, numPhysical)
    ensures t % size < size && t < |blocks| * size && t == (t / size) * size + t % size
  {
    DivBounds(t, size);
    PlaceFits(t / size, t % size, size, |blocks|);
  }

  lemma OneScattered<V>(pages: Pages<V>, size: nat, blocks: seq<nat>, numPhysical: nat, kv: seq<V>, t: nat)
    requires size > 0 && Distinct(blocks) && t < |kv| && |pages| == numPhysical && Rectangular(pages, size)
    requires Placed(t, size, blocks, numPhysical) && Stored(pages, size, blocks, kv[..t])
    ensures t % size < size
    ensures Stored(SetSlot(pages, blocks[t / size], t % size, kv[t]), size, blocks, kv[..t + 1])
  {
    hide Stored;
    PlacedFacts(t, size, blocks, numPhysical);
    WriteAppends(pages, size, blocks, kv[..t], t / size, t % size, kv[t]);
    assert kv[..t + 1] == kv[..t] + [kv[t]];
  }

  ghost predicate Placed(t: nat, size: nat, blocks: seq<nat>, numPhysical: nat)
    requires size > 0
  {
    t / size < |blocks| && blocks[t / size] < numPhysical
  }

  function Reversed(n: nat): (r: seq<nat>)
    ensures |r| == n && Distinct(r) && forall b | b in r :: b < n
  {
    seq(n, k requires 0 <= k < n => n - 1 - k)
  }

  // Scatter through a reversed block order, then gather: what went in comes out.
  method BlockRoundTrip<V>(kv: seq<V>, size: nat, zero: V) returns (gathered: seq<V>)
    requires size > 0
    ensures gathered == kv
  {
    var needed := BlocksFor(|kv|, size);
    var table := Table(Reversed(needed), |kv|);
    forall t | 0 <= t < |kv| ensures Placed(t, size, table.blocks, needed) {
      DivBounds(t, size);
      MulLess(t / size, needed, size);
      assert table.blocks[t / size] in table.blocks;
    }
    var pages := ScatterIntoPages(kv, size, table.blocks, needed, zero);
    StoredIsGathered(pages.value, size, table, kv);
    return Gather(pages.value, size, table, |kv|).value;
  }
}
