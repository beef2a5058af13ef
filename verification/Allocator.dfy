// The refcounted block allocator of engine/cache/allocator.py.
module BlockAllocation {
  import opened Common
  import opened Ownership

  // `list.sort()` on a list without repetitions.
  function Sorted(s: seq<nat>): (r: seq<nat>)
    requires Distinct(s)
    ensures Ascending(r) && |r| == |s|
    ensures forall x: nat :: x in r <==> x in s
  {
    if s == [] then []
    else
      assert s == s[..|s| - 1] + [s[|s| - 1]];
      Insert(Sorted(s[..|s| - 1]), s[|s| - 1])
  }

  function Insert(s: seq<nat>, x: nat): (r: seq<nat>)
    requires Ascending(s) && x !in s
    ensures Ascending(r) && |r| == |s| + 1
    ensures forall y: nat :: y in r <==> y in s || y == x
  {
    if s == [] then [x]
    else if x < s[0] then [x] + s
    else
      var rest := Insert(s[1..], x);
      assert forall i | 0 <= i < |s[1..]| :: s[1..][i] == s[i + 1] && s[0] < s[i + 1];
      assert forall y: nat | y in rest :: s[0] < y;
      assert forall i | 0 <= i < |rest| :: rest[i] in rest;
      assert forall y: nat :: y in s <==> y == s[0] || y in s[1..];
      [s[0]] + rest
  }

  // The blocks that popping `count` times from the end of the free list hands out.
  function Popped(free: seq<nat>, count: nat): (r: seq<nat>)
    requires count <= |free|
  {
    seq(count, i requires 0 <= i < count => free[|free| - 1 - i])
  }

  lemma PoppedSplitsFree(free: seq<nat>, count: nat)
    requires count <= |free| && Ascending(free)
    ensures Distinct(Popped(free, count))
    ensures Ascending(free[..|free| - count])
    ensures forall b: nat :: b in free <==> b in free[..|free| - count] || b in Popped(free, count)
    ensures forall b: nat | b in Popped(free, count) :: b !in free[..|free| - count]
  {
    var kept, blocks := free[..|free| - count], Popped(free, count);
    forall b: nat | b in free && b !in kept ensures b in blocks {
      var i :| 0 <= i < |free| && free[i] == b;
      assert forall j | 0 <= j < |kept| :: kept[j] == free[j] && kept[j] in kept;
      assert blocks[|free| - 1 - i] == b;
    }
  }

  function Swapped(blocks: seq<nat>, k: nat, x: nat): (r: seq<nat>)
    requires k < |blocks| && Distinct(blocks) && x !in blocks
    ensures Distinct(r) && |r| == |blocks|
    ensures forall b: nat :: b in r <==> b == x || (b in blocks && b != blocks[k])
  {
    var r := blocks[k := x];
    assert r[k] == x && forall i | 0 <= i < |blocks| && i != k :: r[i] == blocks[i] && r[i] in blocks;
    assert forall b: nat | b in blocks && b != blocks[k] :: b in r by {
      forall b: nat | b in blocks && b != blocks[k] ensures b in r {
        var i :| 0 <= i < |blocks| && blocks[i] == b;
        assert r[i] == b;
      }
    }
    r
  }

  class BlockAllocator {
    const numBlocks: nat
    const blockSize: nat
    var freeBlocks: seq<nat>
    var allocations: Ledger
    var refcounts: seq<nat>

    // Every count is the number of owners that list the block, and the free list holds
    // exactly the blocks nobody lists, in ascending order and without repetition.
    ghost predicate Valid()
      reads this
    {
      && numBlocks > 0 && blockSize > 0
      && |refcounts| == numBlocks
      && WellFormed(allocations, numBlocks)
      && Counts(allocations, refcounts)
      && FreeListOf(freeBlocks, refcounts)
    }

    constructor (numBlocks: nat, blockSize: nat)
      requires numBlocks > 0 && blockSize > 0
      ensures Valid() && this.numBlocks == numBlocks && this.blockSize == blockSize
      ensures allocations == map[] && |freeBlocks| == numBlocks
    {
      this.numBlocks, this.blockSize := numBlocks, blockSize;
      freeBlocks := seq(numBlocks, i => i);
      allocations := map[];
      refcounts := seq(numBlocks, _ => 0);
      new;
      assert forall b: nat | b < |freeBlocks| :: freeBlocks[b] == b;
      assert Counts(allocations, refcounts);
      assert FreeListOf(freeBlocks, refcounts) by {
        forall b: nat ensures b in freeBlocks <==> b < numBlocks { if b < numBlocks { assert freeBlocks[b] == b; } }
      }
    }

    method Allocate(owner: Owner, count: int) returns (r: Reply<seq<nat>>)
      requires Valid()
      modifies this
      ensures Valid()
      ensures r.Raised? <==> owner == Request("") || count <= 0 || owner in old(allocations)
      ensures r.Exhausted? <==> !r.Raised? && count > |old(freeBlocks)|
      ensures !r.Ok? ==> allocations == old(allocations) && freeBlocks == old(freeBlocks)
      ensures r.Ok? ==> r.value == Popped(old(freeBlocks), count) && Distinct(r.value)
      ensures r.Ok? ==> allocations == old(allocations)[owner := r.value]
      ensures r.Ok? ==> freeBlocks == old(freeBlocks)[..|old(freeBlocks)| - count]
    {
      if owner == Request("") || count <= 0 || owner in allocations {
        return Raised;
      }
      if count > |freeBlocks| {
        return Exhausted;
      }
      var blocks := TakeFree(count);
      CountsAfterInsert(allocations, old(refcounts), owner, blocks, refcounts);
      allocations := allocations[owner := blocks];
      return Ok(blocks);
    }

    // Pops `count` blocks and gives each one reference; the caller records the owner.
    method TakeFree(count: nat) returns (blocks: seq<nat>)
      requires Valid() && count <= |freeBlocks|
      modifies this`freeBlocks, this`refcounts
      ensures blocks == Popped(old(freeBlocks), count) && Distinct(blocks)
      ensures forall b: nat | b in blocks :: b in old(freeBlocks) && b < numBlocks
      ensures freeBlocks == old(freeBlocks)[..|old(freeBlocks)| - count]
      ensures |refcounts| == numBlocks
      ensures forall b: nat | 0 <= b < numBlocks :: refcounts[b] == if b in blocks then 1 else old(refcounts[b])
      ensures FreeListOf(freeBlocks, refcounts)
    {
      blocks := [];
      for i := 0 to count
        modifies `freeBlocks
        invariant freeBlocks == old(freeBlocks)[..|old(freeBlocks)| - i]
        invariant blocks == Popped(old(freeBlocks), i)
      {
        blocks := blocks + [freeBlocks[|freeBlocks| - 1]];
        freeBlocks := freeBlocks[..|freeBlocks| - 1];
      }
      PoppedSplitsFree(old(freeBlocks), count);
      for i := 0 to |blocks|
        modifies `refcounts
        invariant |refcounts| == numBlocks
        invariant forall b: nat | 0 <= b < numBlocks ::
                    refcounts[b] == if b in blocks[..i] then 1 else old(refcounts[b])
      {
        assert blocks[i] in blocks;
        refcounts := refcounts[blocks[i] := 1];
      }
      assert blocks[..|blocks|] == blocks;
      forall b: nat ensures b in freeBlocks <==> b < numBlocks && refcounts[b] == 0 {
        assert b in old(freeBlocks) <==> b in freeBlocks || b in blocks;
      }
    }

    // Adds an owner to blocks that are already live.
    method Attach(owner: Owner, blocks: seq<nat>) returns (r: Reply<seq<nat>>)
      requires Valid()
      modifies this
      ensures Valid() && freeBlocks == old(freeBlocks)
      ensures !r.Exhausted?
      ensures r.Ok? <==> && owner != Request("") && blocks != [] && owner !in old(allocations) && Distinct(blocks)
                         && forall b: nat | b in blocks :: b < numBlocks && Holders(old(allocations), b) != {}
      ensures allocations == if r.Ok? then old(allocations)[owner := blocks] else old(allocations)
      ensures r.Ok? ==> r.value == blocks
    {
      if owner == Request("") || blocks == [] || owner in allocations || !Distinct(blocks) {
        return Raised;
      }
      for i := 0 to |blocks|
        invariant forall k | 0 <= k < i :: blocks[k] < numBlocks && Holders(allocations, blocks[k]) != {}
      {
        if !(blocks[i] < numBlocks) || refcounts[blocks[i]] == 0 {
          assert blocks[i] in blocks;
          return Raised;
        }
      }
      for i := 0 to |blocks|
        modifies `refcounts
        invariant |refcounts| == numBlocks
        invariant forall b: nat | 0 <= b < numBlocks ::
                    refcounts[b] == old(refcounts[b]) + if b in blocks[..i] then 1 else 0
      {
        refcounts := refcounts[blocks[i] := refcounts[blocks[i]] + 1];
      }
      assert blocks[..|blocks|] == blocks;
      CountsAfterInsert(allocations, old(refcounts), owner, blocks, refcounts);
      allocations := allocations[owner := blocks];
      return Ok(blocks);
    }

    method Release(owner: Owner) returns (r: Reply<seq<nat>>)
      requires Valid()
      modifies this
      ensures Valid()
      ensures r == if owner in old(allocations) then Ok(old(allocations)[owner]) else Raised
      ensures allocations == old(allocations) - {owner}
    {
      if owner !in allocations {
        assert allocations - {owner} == allocations;
        return Raised;
      }
      var blocks := allocations[owner];
      ListedMeansCounted(allocations, refcounts, owner);
      var freed := DropReferences(blocks);
      assert forall i, j | 0 <= i < |freeBlocks| && 0 <= j < |freed| ::
          freeBlocks[i] in freeBlocks && freed[j] in freed;
      CountsAfterRemove(allocations, old(refcounts), owner, refcounts);
      allocations := allocations - {owner};
      freeBlocks := Sorted(freeBlocks + freed);
      return Ok(blocks);
    }

    // Takes one reference from each block and returns those left without any.
    method DropReferences(blocks: seq<nat>) returns (freed: seq<nat>)
      requires |refcounts| == numBlocks && Distinct(blocks)
      requires forall b: nat | b in blocks :: b < numBlocks && refcounts[b] > 0
      modifies `refcounts
      ensures |refcounts| == numBlocks && Distinct(freed)
      ensures forall b: nat | 0 <= b < numBlocks ::
                refcounts[b] == old(refcounts[b]) - if b in blocks then 1 else 0
      ensures forall b: nat :: b in freed <==> b in blocks && refcounts[b] == 0
    {
      freed := [];
      for i := 0 to |blocks|
        invariant |refcounts| == numBlocks
        invariant forall b: nat | 0 <= b < numBlocks ::
                    refcounts[b] == old(refcounts[b]) - if b in blocks[..i] then 1 else 0
        invariant Distinct(freed)
        invariant forall b: nat :: b in freed <==> b in blocks[..i] && b < numBlocks && refcounts[b] == 0
      {
        var b := blocks[i];
        assert b in blocks && blocks[..i + 1] == blocks[..i] + [b];
        assert b !in blocks[..i];
        refcounts := refcounts[b := refcounts[b] - 1];
        if refcounts[b] == 0 {
          freed := freed + [b];
        }
      }
      assert blocks[..|blocks|] == blocks;
    }

    method Extend(owner: Owner, count: int) returns (r: Reply<seq<nat>>)
      requires Valid()
      modifies this
      ensures Valid()
      ensures r.Raised? <==> count <= 0 || owner !in old(allocations)
      ensures r.Exhausted? <==> !r.Raised? && count > |old(freeBlocks)|
      ensures !r.Ok? ==> allocations == old(allocations) && freeBlocks == old(freeBlocks)
      ensures r.Ok? ==> r.value == Popped(old(freeBlocks), count) && Distinct(r.value)
      ensures r.Ok? ==> allocations == old(allocations)[owner := old(allocations)[owner] + r.value]
      ensures r.Ok? ==> freeBlocks == old(freeBlocks)[..|old(freeBlocks)| - count]
    {
      if count <= 0 || owner !in allocations {
        return Raised;
      }
      if count > |freeBlocks| {
        return Exhausted;
      }
      var held := allocations[owner];
      forall b: nat | b in freeBlocks ensures b !in held {
        UncountedMeansUnlisted(allocations, refcounts, b);
      }
      var blocks := TakeFree(count);
      CountsAfterReplace(allocations, old(refcounts), owner, held + blocks, refcounts);
      assert Distinct(held + blocks) by {
        assert forall j | 0 <= j < |blocks| :: blocks[j] in blocks && blocks[j] !in held;
        assert forall j | 0 <= j < |held| :: held[j] in held;
      }
      allocations := allocations[owner := held + blocks];
      return Ok(blocks);
    }

    // Nobody holds a block of the free list.
    lemma SparesAreUnlisted()
      requires Valid()
      ensures forall b: nat | b in freeBlocks :: b < numBlocks && Holders(allocations, b) == {}
    {
      forall b: nat | b in freeBlocks ensures b < numBlocks && Holders(allocations, b) == {} {
        UncountedMeansUnlisted(allocations, refcounts, b);
      }
    }

    // Swaps one shared block of an owner for a fresh private one.
    method ReplaceShared(owner: Owner, index: int) returns (r: Reply<(nat, nat)>)
      requires Valid()
      modifies this
      ensures Valid()
      ensures owner !in old(allocations) ==> r.Raised?
      ensures owner in old(allocations) ==>
        var blocks: seq<nat> := old(allocations)[owner];
        if !(-|blocks| <= index < |blocks|) then r.Raised?
        else
          var k := if index < 0 then index + |blocks| else index;
          if |Holders(old(allocations), blocks[k])| <= 1 then r.Raised?
          else if old(freeBlocks) == [] then r.Exhausted?
          else
            var spare: nat := old(freeBlocks)[|old(freeBlocks)| - 1];
            && spare !in blocks
               && r == Ok((blocks[k], spare))
               && allocations == old(allocations)[owner := Swapped(blocks, k, spare)]
               && freeBlocks == old(freeBlocks)[..|old(freeBlocks)| - 1]
      ensures !r.Ok? ==> allocations == old(allocations) && freeBlocks == old(freeBlocks)
    {
      if owner !in allocations {
        return Raised;
      }
      var blocks := allocations[owner];
      if !(-|blocks| <= index < |blocks|) {
        return Raised;
      }
      var k := if index < 0 then index + |blocks| else index;
      var oldBlock := blocks[k];
      assert oldBlock in blocks;
      if refcounts[oldBlock] <= 1 {
        return Raised;
      }
      if freeBlocks == [] {
        return Exhausted;
      }
      var newBlock := freeBlocks[|freeBlocks| - 1];
      assert newBlock in freeBlocks;
      UncountedMeansUnlisted(allocations, refcounts, newBlock);
      freeBlocks := freeBlocks[..|freeBlocks| - 1];
      refcounts := refcounts[newBlock := 1][oldBlock := refcounts[oldBlock] - 1];
      var swapped := Swapped(blocks, k, newBlock);
      CountsAfterReplace(allocations, old(refcounts), owner, swapped, refcounts);
      allocations := allocations[owner := swapped];
      return Ok((oldBlock, newBlock));
    }
  }
}
