// Per-request block tables and their manager: engine/cache/paging.py.
module Paging {
  import opened Common
  import opened Ownership
  import opened BlockAllocation

  // One request's logical-to-physical mapping and committed length.
  datatype Table = Table(blocks: seq<nat>, length: nat) {
    function Capacity(size: nat): nat { |blocks| * size }

    // Physical block and slot of a token; the source raises IndexError past the capacity.
    function Location(size: nat, token: int): (r: Option<(nat, nat)>)
      requires size > 0
      ensures r.Some? <==> 0 <= token < Capacity(size)
      ensures r.Some? ==> exists k: nat ::
                && k < |blocks| && r.value.0 == blocks[k]
                && k * size <= token && r.value.1 == token - k * size < size
    {
      if !(0 <= token < Capacity(size)) then None
      else
        DivBounds(token, size);
        MulLess(token / size, |blocks|, size);
        assert (token / size) * size <= token;
        Some((blocks[token / size], token % size))
    }
  }

  type Pages<V> = seq<seq<V>>

  predicate Rectangular<V>(pages: Pages<V>, size: nat) {
    forall b: nat | b < |pages| :: |pages[b]| == size
  }

  // Pages joined in order into one run of tokens.
  function Flatten<V>(pages: Pages<V>): seq<V> {
    if pages == [] then [] else pages[0] + Flatten(pages[1..])
  }

  function Selected<V>(pages: Pages<V>, blocks: seq<nat>): (r: Pages<V>)
    requires forall b: nat | b in blocks :: b < |pages|
    ensures |r| == |blocks|
    ensures forall k: nat | k < |blocks| :: blocks[k] in blocks && r[k] == pages[blocks[k]]
  {
    seq(|blocks|, k requires 0 <= k < |blocks| => assert blocks[k] in blocks; pages[blocks[k]])
  }

  // Reference gather: select the table's pages, flatten, cut to the length.
  function Gather<V>(pages: Pages<V>, size: nat, table: Table, length: int): (r: Option<seq<V>>)
    requires forall b: nat | b in table.blocks :: b < |pages|
    requires Rectangular(pages, size)
    ensures r.Some? <==> 0 <= length <= table.Capacity(size)
    ensures r.Some? ==> |r.value| == length
  {
    if !(0 <= length <= table.Capacity(size)) then None
    else
      FlattenLength(Selected(pages, table.blocks), size);
      Some(Flatten(Selected(pages, table.blocks))[..length])
  }

  lemma {:induction false} FlattenLength<V>(pages: Pages<V>, size: nat)
    requires Rectangular(pages, size)
    ensures |Flatten(pages)| == |pages| * size
  {
    if pages != [] {
      FlattenLength(pages[1..], size);
      assert |pages| * size == |pages[1..]| * size + size;
    }
  }

  lemma {:induction false} FlattenAt<V>(pages: Pages<V>, size: nat, k: nat, slot: nat)
    requires Rectangular(pages, size) && k < |pages| && slot < size
    ensures k * size + slot < |Flatten(pages)|
    ensures Flatten(pages)[k * size + slot] == pages[k][slot]
  {
    FlattenLength(pages, size);
    MulMono(k + 1, |pages|, size);
    assert (k + 1) * size == k * size + size;
    if k > 0 {
      FlattenAt(pages[1..], size, k - 1, slot);
      assert k * size == (k - 1) * size + size;
      assert Flatten(pages) == pages[0] + Flatten(pages[1..]);
    }
  }

  // Gathering reads, for every token, exactly the slot its location names.
  lemma GatherReadsLocations<V>(pages: Pages<V>, size: nat, table: Table, length: nat, token: nat)
    requires forall b: nat | b in table.blocks :: b < |pages|
    requires Rectangular(pages, size) && size > 0
    requires token < length <= table.Capacity(size)
    ensures var at := table.Location(size, token).value;
            && at.0 < |pages| && at.1 < size
            && Gather(pages, size, table, length).value[token] == pages[at.0][at.1]
  {
    var selected := Selected(pages, table.blocks);
    DivBounds(token, size);
    MulLess(token / size, |table.blocks|, size);
    assert table.blocks[token / size] in table.blocks;
    FlattenLength(selected, size);
    FlattenAt(selected, size, token / size, token % size);
  }

  // The blocks hold `values`, in order, from their first slot on.
  ghost predicate Stored<V>(pool: Pages<V>, size: nat, blocks: seq<nat>, values: seq<V>) {
    && |values| <= |blocks| * size
    && (forall k | 0 <= k < |blocks| :: blocks[k] < |pool| && |pool[blocks[k]]| == size)
    && forall k, slot | 0 <= k < |blocks| && 0 <= slot < size && k * size + slot < |values| ::
         pool[blocks[k]][slot] == values[k * size + slot]
  }

  // More blocks behind the run do not change it.
  lemma StoredInMore<V>(pool: Pages<V>, size: nat, blocks: seq<nat>, more: seq<nat>, values: seq<V>)
    requires Stored(pool, size, blocks, values)
    requires forall b: nat | b in more :: b < |pool| && |pool[b]| == size
    ensures Stored(pool, size, blocks + more, values)
  {
    var all := blocks + more;
    MulMono(|blocks|, |all|, size);
    forall k | 0 <= k < |all| ensures all[k] < |pool| && |pool[all[k]]| == size {
      assert k >= |blocks| ==> all[k] in more;
    }
    forall k, slot | 0 <= k < |all| && 0 <= slot < size && k * size + slot < |values|
      ensures pool[all[k]][slot] == values[k * size + slot]
    {
      WithinBlocks(k, slot, size, |values|, |blocks|);
    }
  }

  lemma WithinBlocks(k: nat, slot: nat, size: nat, length: nat, blocks: nat)
    requires k * size + slot < length <= blocks * size
    ensures k < blocks
  {
    MulLess(k, blocks, size);
  }

  // `Stored` says the same as the reference gather.
  lemma StoredIsGathered<V>(pool: Pages<V>, size: nat, table: Table, values: seq<V>)
    requires size > 0 && Rectangular(pool, size)
    requires forall b: nat | b in table.blocks :: b < |pool|
    ensures Stored(pool, size, table.blocks, values) <==> Gather(pool, size, table, |values|) == Some(values)
  {
    var gathered := Gather(pool, size, table, |values|);
    if gathered.Some? {
      assert forall k | 0 <= k < |table.blocks| :: table.blocks[k] in table.blocks;
      if gathered.value == values {
        forall k, slot | 0 <= k < |table.blocks| && 0 <= slot < size && k * size + slot < |values|
          ensures pool[table.blocks[k]][slot] == values[k * size + slot]
        {
          GatheredAt(pool, size, table, |values|, k, slot);
        }
      }
      if Stored(pool, size, table.blocks, values) {
        forall i | 0 <= i < |values| ensures gathered.value[i] == values[i] {
          DivBounds(i, size);
          MulLess(i / size, |table.blocks|, size);
          GatheredAt(pool, size, table, |values|, i / size, i % size);
        }
        assert gathered.value == values;
      }
    }
  }

  lemma GatheredAt<V>(pool: Pages<V>, size: nat, table: Table, length: nat, k: nat, slot: nat)
    requires size > 0 && Rectangular(pool, size)
    requires forall b: nat | b in table.blocks :: b < |pool|
    requires length <= table.Capacity(size)
    requires k < |table.blocks| && slot < size && k * size + slot < length
    ensures table.blocks[k] in table.blocks
    ensures Gather(pool, size, table, length).value[k * size + slot] == pool[table.blocks[k]][slot]
  {
    var i := k * size + slot;
    DivUnique(i, size, k);
    assert table.blocks[k] in table.blocks;
    GatherReadsLocations(pool, size, table, length, i);
  }

  function SetSlot<V>(pool: Pages<V>, b: nat, slot: nat, v: V): Pages<V>
    requires b < |pool| && slot < |pool[b]|
  {
    pool[b := pool[b][slot := v]]
  }

  // The written vector becomes the next value of the request's run.
  lemma WriteAppends<V>(pool: Pages<V>, size: nat, blocks: seq<nat>, values: seq<V>, k: nat, slot: nat, v: V)
    requires size > 0 && Distinct(blocks) && Stored(pool, size, blocks, values)
    requires k < |blocks| && slot < size && k * size + slot == |values|
    ensures blocks[k] < |pool| && |pool[blocks[k]]| == size
    ensures Stored(SetSlot(pool, blocks[k], slot, v), size, blocks, values + [v])
  {
    var after := SetSlot(pool, blocks[k], slot, v);
    PlaceFits(k, slot, size, |blocks|);
    forall j, t | 0 <= j < |blocks| && 0 <= t < size && j * size + t < |values| + 1
      ensures after[blocks[j]][t] == (values + [v])[j * size + t]
    {
      if j * size + t == |values| { SamePlace(j, t, k, slot, size); }
    }
  }

  lemma StoredTake<V>(pool: Pages<V>, size: nat, blocks: seq<nat>, values: seq<V>, k: nat)
    requires Stored(pool, size, blocks, values) && k <= |values|
    ensures Stored(pool, size, blocks, values[..k])
  {
  }

  class KVBlockManager {
    const allocator: BlockAllocator
    var requests: map<string, Table>

    // The manager's tables mirror what the allocator records for request owners.
    ghost predicate Valid()
      reads this, allocator
    {
      && allocator.Valid()
      && Mirrors(allocator.allocations, requests, allocator.blockSize)
    }

    constructor (numBlocks: nat, blockSize: nat)
      requires numBlocks > 0 && blockSize > 0
      ensures Valid() && fresh(allocator) && requests == map[] && allocator.allocations == map[]
      ensures allocator.numBlocks == numBlocks && allocator.blockSize == blockSize
      ensures |allocator.freeBlocks| == numBlocks
    {
      allocator := new BlockAllocator(numBlocks, blockSize);
      requests := map[];
    }

    method Reserve(id: string, capacity: int, length: int) returns (r: Reply<Table>)
      requires Valid()
      modifies this, allocator
      ensures Valid()
      ensures r.Raised? <==> id == "" || capacity <= 0 || !(0 <= length <= capacity) || id in old(requests)
      ensures r.Exhausted? <==> !r.Raised? && BlocksFor(capacity, allocator.blockSize) > |old(allocator.freeBlocks)|
      ensures !r.Ok? ==> (&& requests == old(requests)
                          && allocator.allocations == old(allocator.allocations)
                          && allocator.freeBlocks == old(allocator.freeBlocks))
      ensures r.Ok? ==>
        var count := BlocksFor(capacity, allocator.blockSize);
        && count <= |old(allocator.freeBlocks)|
        && r.value == Table(Popped(old(allocator.freeBlocks), count), length)
        && requests == old(requests)[id := r.value]
        && allocator.allocations == old(allocator.allocations)[Request(id) := r.value.blocks]
    {
      if capacity <= 0 || length < 0 || length > capacity || id in requests {
        return Raised;
      }
      var count := BlocksFor(capacity, allocator.blockSize);
      MulLess(0, count, allocator.blockSize);
      var blocks := allocator.Allocate(Request(id), count);
      if !blocks.Ok? {
        return if blocks.Exhausted? then Exhausted else Raised;
      }
      requests := requests[id := Table(blocks.value, length)];
      return Ok(requests[id]);
    }

    // Shares blocks that already hold a cached prefix.
    method AttachPrefix(id: string, blocks: seq<nat>, length: int) returns (r: Reply<Table>)
      requires Valid()
      modifies this, allocator
      ensures Valid() && !r.Exhausted?
      ensures r.Ok? <==> && id != "" && id !in old(requests) && blocks != [] && length > 0
                         && (|blocks| - 1) * allocator.blockSize < length <= |blocks| * allocator.blockSize
                         && Distinct(blocks)
                         && forall b: nat | b in blocks ::
                              b < allocator.numBlocks && Holders(old(allocator.allocations), b) != {}
      ensures !r.Ok? ==> requests == old(requests) && allocator.allocations == old(allocator.allocations)
      ensures r.Ok? ==> && r.value == Table(blocks, length)
                        && requests == old(requests)[id := r.value]
                        && allocator.allocations == old(allocator.allocations)[Request(id) := blocks]
      ensures allocator.freeBlocks == old(allocator.freeBlocks)
    {
      if id in requests || blocks == [] || length <= 0 {
        return Raised;
      }
      var capacity := |blocks| * allocator.blockSize;
      assert (|blocks| - 1) * allocator.blockSize == capacity - allocator.blockSize;
      if !(capacity - allocator.blockSize < length <= capacity) {
        return Raised;
      }
      var attached := allocator.Attach(Request(id), blocks);
      if !attached.Ok? {
        return Raised;
      }
      requests := requests[id := Table(blocks, length)];
      return Ok(requests[id]);
    }

    // Gives a request a private last block in place of a shared, partly filled one.
    method CopyOnWriteTail(id: string) returns (r: Reply<(nat, nat)>)
      requires Valid()
      modifies this, allocator
      ensures Valid()
      ensures id !in old(requests) ==> r.Raised?
      ensures id in old(requests) ==>
        var table := old(requests)[id];
        if table.length % allocator.blockSize == 0 || |Holders(old(allocator.allocations), Last(table.blocks))| <= 1
        then r.Raised?
        else if old(allocator.freeBlocks) == [] then r.Exhausted?
        else
          var spare: nat := old(allocator.freeBlocks)[|old(allocator.freeBlocks)| - 1];
          && spare !in table.blocks
          && r == Ok((Last(table.blocks), spare))
          && requests == old(requests)[id := table.(blocks := Swapped(table.blocks, |table.blocks| - 1, spare))]
          && allocator.allocations
             == old(allocator.allocations)[Request(id) := Swapped(table.blocks, |table.blocks| - 1, spare)]
          && |allocator.freeBlocks| == |old(allocator.freeBlocks)| - 1
      ensures !r.Ok? ==> (&& requests == old(requests) && allocator.allocations == old(allocator.allocations)
                          && allocator.freeBlocks == old(allocator.freeBlocks))
    {
      if id !in requests {
        return Raised;
      }
      var table := requests[id];
      if table.length % allocator.blockSize == 0 {
        return Raised;
      }
      r := allocator.ReplaceShared(Request(id), -1);
      if r.Ok? {
        requests := requests[id := table.(blocks := Swapped(table.blocks, |table.blocks| - 1, r.value.1))];
      }
    }

    // Makes room for `target` tokens without committing them.
    method EnsureCapacity(id: string, target: int) returns (r: Reply<bool>)
      requires Valid()
      modifies this, allocator
      ensures Valid() && !r.Exhausted?
      ensures r.Raised? <==> id !in old(requests) || target < old(requests)[id].length
      ensures r.Ok? ==>
        var table := old(requests)[id];
        var extra := BlocksFor(target, allocator.blockSize) - |table.blocks|;
        && r.value == (extra <= |old(allocator.freeBlocks)|)
        && (r.value && extra > 0 ==>
              var more := Popped(old(allocator.freeBlocks), extra);
              && requests == old(requests)[id := table.(blocks := table.blocks + more)]
              && allocator.allocations == old(allocator.allocations)[Request(id) := table.blocks + more])
        && (!r.value || extra <= 0 ==> allocator.freeBlocks == old(allocator.freeBlocks))
        && (!r.value || extra <= 0 ==> requests == old(requests) && allocator.allocations == old(allocator.allocations))
      ensures r.Raised? ==> requests == old(requests) && allocator.allocations == old(allocator.allocations)
    {
      if id !in requests || target < requests[id].length {
        return Raised;
      }
      var table := requests[id];
      var extra := BlocksFor(target, allocator.blockSize) - |table.blocks|;
      if extra <= 0 {
        return Ok(true);
      }
      var more := allocator.Extend(Request(id), extra);
      if !more.Ok? {
        return Ok(false);
      }
      MulMono(|table.blocks|, |table.blocks + more.value|, allocator.blockSize);
      requests := requests[id := table.(blocks := table.blocks + more.value)];
      return Ok(true);
    }

    // Commits `count` more tokens, taking new blocks only past the reserved capacity.
    method AppendTokens(id: string, count: int) returns (r: Reply<bool>)
      requires Valid()
      modifies this, allocator
      ensures Valid() && !r.Exhausted?
      ensures r.Raised? <==> count <= 0 || id !in old(requests)
      ensures r.Ok? ==>
        var table := old(requests)[id];
        var extra := BlocksFor(table.length + count, allocator.blockSize) - |table.blocks|;
        && r.value == (extra <= |old(allocator.freeBlocks)|)
        && (r.value ==> && id in requests && requests == old(requests)[id := requests[id]]
                        && requests[id].length == table.length + count
                        && table.blocks <= requests[id].blocks)
        && (r.value && extra <= 0 ==> && requests == old(requests)[id := table.(length := table.length + count)]
                                      && allocator.freeBlocks == old(allocator.freeBlocks)
                                      && allocator.allocations == old(allocator.allocations))
      ensures (r.Ok? ==> !r.value) ==> requests == old(requests) && allocator.allocations == old(allocator.allocations)
    {
      if count <= 0 || id !in requests {
        return Raised;
      }
      var target := requests[id].length + count;
      r := EnsureCapacity(id, target);
      if r == Ok(true) {
        MulMono(BlocksFor(target, allocator.blockSize), |requests[id].blocks|, allocator.blockSize);
        requests := requests[id := requests[id].(length := target)];
      }
    }

    method Release(id: string) returns (r: Reply<Table>)
      requires Valid()
      modifies this, allocator
      ensures Valid()
      ensures r == if id in old(requests) then Ok(old(requests)[id]) else Raised
      ensures requests == old(requests) - {id}
      ensures allocator.allocations
           == if id in old(requests) then old(allocator.allocations) - {Request(id)} else old(allocator.allocations)
    {
      if id !in requests {
        assert requests - {id} == requests;
        return Raised;
      }
      r := Ok(requests[id]);
      requests := requests - {id};
      var _ := allocator.Release(Request(id));
    }
  }

  function Last(blocks: seq<nat>): nat { if blocks == [] then 0 else blocks[|blocks| - 1] }

  ghost predicate Mirrors(owned: Ledger, requests: map<string, Table>, size: nat) {
    && (forall id :: id in requests <==> Request(id) in owned)
    && forall id | id in requests ::
         owned[Request(id)] == requests[id].blocks && requests[id].length <= requests[id].Capacity(size)
  }
}
