// The first-fit contiguous arena with coalescing of engine/cache/allocator.py.
module ContiguousArena {
  import opened Common

  datatype Range = Range(start: nat, length: nat) {
    function End(): nat { start + length }
    predicate Has(t: nat) { start <= t < End() }
  }

  type Allocations = map<string, Range>

  ghost predicate InSome(ranges: seq<Range>, t: nat) {
    exists i | 0 <= i < |ranges| :: ranges[i].Has(t)
  }

  ghost predicate Owned(allocations: Allocations, t: nat) {
    exists id | id in allocations :: allocations[id].Has(t)
  }

  // Non-empty ranges in address order that do not overlap.
  ghost predicate InOrder(ranges: seq<Range>) {
    && (forall i | 0 <= i < |ranges| :: ranges[i].length > 0)
    && (forall i, j | 0 <= i < j < |ranges| :: ranges[i].End() <= ranges[j].start)
  }

  // And no two of them touch.
  ghost predicate Coalesced(ranges: seq<Range>) {
    && (forall i | 0 <= i < |ranges| :: ranges[i].length > 0)
    && (forall i, j | 0 <= i < j < |ranges| :: ranges[i].End() < ranges[j].start)
  }

  // Every token of the arena is in a free range or owned by exactly one request.
  ghost predicate Tiled(free: seq<Range>, allocations: Allocations, capacity: nat) {
    && (forall i | 0 <= i < |free| :: free[i].End() <= capacity)
    && (forall id | id in allocations :: allocations[id].length > 0 && allocations[id].End() <= capacity)
    && (forall t: nat | t < capacity :: InSome(free, t) <==> !Owned(allocations, t))
    && (forall a, b, t: nat | a in allocations && b in allocations && a != b ::
          !(allocations[a].Has(t) && allocations[b].Has(t)))
  }

  // A run of `n` consecutive tokens that nobody owns.
  ghost predicate FreeRun(allocations: Allocations, capacity: nat, s: nat, n: nat) {
    s + n <= capacity && forall t: nat | s <= t < s + n :: !Owned(allocations, t)
  }

  // Because free ranges never touch, a free run lies within one of them.
  lemma {:induction false} RunInOneRange(free: seq<Range>, allocations: Allocations, capacity: nat, s: nat, n: nat)
    returns (i: nat)
    requires Coalesced(free) && Tiled(free, allocations, capacity) && FreeRun(allocations, capacity, s, n) && n > 0
    ensures i < |free| && free[i].start <= s && s + n <= free[i].End()
    decreases n
  {
    if n == 1 {
      assert InSome(free, s);
      i :| 0 <= i < |free| && free[i].Has(s);
    } else {
      i := RunInOneRange(free, allocations, capacity, s, n - 1);
      var last := s + n - 1;
      assert InSome(free, last);
      var j :| 0 <= j < |free| && free[j].Has(last);
    }
  }

  lemma RangeIsRun(free: seq<Range>, allocations: Allocations, capacity: nat, i: nat, n: nat)
    requires Tiled(free, allocations, capacity) && i < |free| && n <= free[i].length
    ensures FreeRun(allocations, capacity, free[i].start, n)
  {
    forall t: nat | free[i].start <= t < free[i].start + n ensures !Owned(allocations, t) {
      assert free[i].Has(t) && InSome(free, t);
    }
  }

  // With nothing owned, everything is one range again.
  lemma EmptyIsOneRange(free: seq<Range>, capacity: nat)
    requires Coalesced(free) && Tiled(free, map[], capacity) && capacity > 0
    ensures free == [Range(0, capacity)]
  {
    var i := RunInOneRange(free, map[], capacity, 0, capacity);
    assert free[i] == Range(0, capacity);
    LaterStart(free, i);
    LaterStart(free, |free| - 1);
  }

  lemma LaterStart(free: seq<Range>, j: nat)
    requires Coalesced(free) && j < |free|
    ensures j > 0 ==> free[0].End() < free[j].start < free[j].End()
  {
  }

  // ---- taking from the front of a range ---------------------------------------------------

  // The free list after taking `n` tokens from the front of range i.
  function Taken(free: seq<Range>, i: nat, n: nat): seq<Range>
    requires i < |free| && n <= free[i].length
  {
    if n < free[i].length then free[i := Range(free[i].start + n, free[i].length - n)]
    else free[..i] + free[i + 1..]
  }

  lemma TakenCovers(free: seq<Range>, i: nat, n: nat, t: nat)
    requires Coalesced(free) && i < |free| && 0 < n <= free[i].length
    ensures InSome(Taken(free, i, n), t) <==> InSome(free, t) && !Range(free[i].start, n).Has(t)
  {
    hide InSome;
    var a, r, b := free[..i], free[i], free[i + 1..];
    var rest := Range(r.start + n, r.length - n);
    assert free == a + [r] + b;
    InSomeAround(a, r, b, t);
    Apart(free, i, t);
    if n < r.length {
      assert Taken(free, i, n) == a + [rest] + b;
      InSomeAround(a, rest, b, t);
    } else {
      InSomeJoin(a, b, t);
    }
  }

  lemma InSomeAround(a: seq<Range>, r: Range, b: seq<Range>, t: nat)
    ensures InSome(a + [r] + b, t) <==> InSome(a, t) || r.Has(t) || InSome(b, t)
  {
    hide InSome;
    InSomeJoin(a + [r], b, t);
    InSomeJoin(a, [r], t);
  }

  // A token of one range is in no other range.
  lemma Apart(free: seq<Range>, i: nat, t: nat)
    requires Coalesced(free) && i < |free|
    ensures free[i].Has(t) ==> !InSome(free[..i], t) && !InSome(free[i + 1..], t)
  {
    var after := free[i + 1..];
    assert forall k | 0 <= k < |after| :: after[k].start > free[i].End();
  }

  lemma TakenTiles(free: seq<Range>, allocations: Allocations, capacity: nat, i: nat, n: nat, id: string)
    requires Coalesced(free) && Tiled(free, allocations, capacity) && i < |free| && 0 < n <= free[i].length
    requires id !in allocations
    ensures Coalesced(Taken(free, i, n))
    ensures Tiled(Taken(free, i, n), allocations[id := Range(free[i].start, n)], capacity)
  {
    var after, r := Taken(free, i, n), Range(free[i].start, n);
    var owned := allocations[id := r];
    forall t: nat | t < capacity ensures InSome(after, t) <==> !Owned(owned, t) {
      TakenCovers(free, i, n, t);
      OwnedInsert(allocations, id, r, t);
    }
    forall a, t: nat | a in allocations && r.Has(t) ensures !allocations[a].Has(t) {
      assert free[i].Has(t) && InSome(free, t);
    }
  }

  lemma OwnedInsert(allocations: Allocations, id: string, r: Range, t: nat)
    requires id !in allocations
    ensures Owned(allocations[id := r], t) <==> Owned(allocations, t) || r.Has(t)
  {
    var after := allocations[id := r];
    if r.Has(t) { assert after[id].Has(t); }
    if Owned(allocations, t) {
      var a :| a in allocations && allocations[a].Has(t);
      assert after[a].Has(t);
    }
  }

  // ---- giving back ------------------------------------------------------------------------

  // `sort` on an ordered list with one more range.
  function Inserted(ranges: seq<Range>, r: Range): (s: seq<Range>)
    requires InOrder(ranges) && r.length > 0
    requires forall i | 0 <= i < |ranges| :: ranges[i].End() <= r.start || r.End() <= ranges[i].start
    ensures InOrder(s) && forall t: nat :: InSome(s, t) <==> InSome(ranges, t) || r.Has(t)
    ensures forall x :: x in s <==> x in ranges || x == r
  {
    assert ranges != [] ==> ranges[0].End() <= r.start || r.End() <= ranges[0].start;
    if ranges == [] || r.start < ranges[0].start then
      FirstInOrder(r, ranges);
      InSomeFirst(r, ranges);
      [r] + ranges
    else
      var rest := Inserted(ranges[1..], r);
      assert ranges == [ranges[0]] + ranges[1..];
      assert forall x | x in ranges[1..] :: ranges[0].End() <= x.start;
      assert rest != [] ==> rest[0] in rest;
      FirstInOrder(ranges[0], rest);
      InSomeFirst(ranges[0], rest);
      InSomeFirst(ranges[0], ranges[1..]);
      [ranges[0]] + rest
  }

  lemma FirstInOrder(first: Range, ranges: seq<Range>)
    requires InOrder(ranges) && first.length > 0 && (ranges != [] ==> first.End() <= ranges[0].start)
    ensures InOrder([first] + ranges)
  {
  }

  lemma InSomeFirst(first: Range, ranges: seq<Range>)
    ensures forall t: nat :: InSome([first] + ranges, t) <==> first.Has(t) || InSome(ranges, t)
  {
    forall t: nat ensures InSome([first] + ranges, t) <==> first.Has(t) || InSome(ranges, t) {
      InSomeJoin([first], ranges, t);
      InSomeJoin([], [first], t);
    }
  }

  lemma InSomeJoin(a: seq<Range>, b: seq<Range>, t: nat)
    ensures InSome(a + b, t) <==> InSome(a, t) || InSome(b, t)
    ensures |b| == 1 ==> (InSome(b, t) <==> b[0].Has(t))
  {
    if InSome(a, t) {
      var i :| 0 <= i < |a| && a[i].Has(t);
      assert (a + b)[i].Has(t);
    }
    if InSome(b, t) {
      var i :| 0 <= i < |b| && b[i].Has(t);
      assert (a + b)[|a| + i].Has(t);
    }
  }

  // One more range at the end: joined to the last one if they touch.
  function Absorbed(merged: seq<Range>, r: Range): (s: seq<Range>)
    ensures s != [] && s[|s| - 1].End() == r.End()
  {
    if merged != [] && merged[|merged| - 1].End() == r.start
    then merged[..|merged| - 1] + [Range(merged[|merged| - 1].start, merged[|merged| - 1].length + r.length)]
    else merged + [r]
  }

  lemma AbsorbedCovers(merged: seq<Range>, r: Range)
    ensures forall t: nat :: InSome(Absorbed(merged, r), t) <==> InSome(merged, t) || r.Has(t)
  {
    hide InSome;
    forall t: nat ensures InSome(Absorbed(merged, r), t) <==> InSome(merged, t) || r.Has(t) {
      if merged != [] && merged[|merged| - 1].End() == r.start {
        var body, last := merged[..|merged| - 1], merged[|merged| - 1];
        assert merged == body + [last];
        InSomeJoin(body, [last], t);
        InSomeJoin(body, [Range(last.start, last.length + r.length)], t);
      } else {
        InSomeJoin(merged, [r], t);
      }
    }
  }

  lemma AbsorbedCoalesced(merged: seq<Range>, r: Range)
    requires Coalesced(merged) && r.length > 0 && (merged != [] ==> merged[|merged| - 1].End() <= r.start)
    ensures Coalesced(Absorbed(merged, r))
  {
  }

  // Joins neighbours that touch.
  method Merged(ranges: seq<Range>) returns (merged: seq<Range>)
    requires InOrder(ranges)
    ensures Coalesced(merged) && forall t: nat :: InSome(merged, t) <==> InSome(ranges, t)
  {
    hide InSome, Coalesced;
    merged := [];
    assert Coalesced(merged) && forall t: nat :: !InSome(merged, t) by { NothingFree(); }
    for i := 0 to |ranges|
      invariant Coalesced(merged) && forall t: nat :: InSome(merged, t) <==> InSome(ranges[..i], t)
      invariant merged != [] <==> i > 0
      invariant i > 0 ==> merged[|merged| - 1].End() == ranges[i - 1].End()
    {
      var r := ranges[i];
      assert ranges[..i + 1] == ranges[..i] + [r];
      forall t: nat ensures InSome(ranges[..i + 1], t) <==> InSome(ranges[..i], t) || r.Has(t) {
        InSomeJoin(ranges[..i], [r], t);
      }
      AbsorbedCovers(merged, r);
      AbsorbedCoalesced(merged, r);
      merged := Absorbed(merged, r);
    }
    assert ranges[..|ranges|] == ranges;
  }

  lemma NothingFree()
    ensures Coalesced([]) && forall t: nat :: !InSome([], t)
  {
  }

  lemma ReturnedTiles(free: seq<Range>, allocations: Allocations, capacity: nat, id: string, sorted: seq<Range>,
                      merged: seq<Range>)
    requires Tiled(free, allocations, capacity) && id in allocations
    requires forall t: nat :: InSome(sorted, t) <==> InSome(free, t) || allocations[id].Has(t)
    requires forall t: nat :: InSome(merged, t) <==> InSome(sorted, t)
    requires forall i | 0 <= i < |merged| :: merged[i].length > 0
    ensures Tiled(merged, allocations - {id}, capacity)
  {
    forall i | 0 <= i < |merged| ensures merged[i].End() <= capacity {
      var t := merged[i].End() - 1;
      assert merged[i].Has(t) && InSome(merged, t);
    }
    forall t: nat | t < capacity ensures InSome(merged, t) <==> !Owned(allocations - {id}, t) {
      OwnedInsert(allocations - {id}, id, allocations[id], t);
      assert (allocations - {id})[id := allocations[id]] == allocations;
      assert Owned(allocations - {id}, t) ==> exists a | a in allocations && a != id :: allocations[a].Has(t);
    }
  }

  // Owned and free ranges do not overlap.
  lemma OwnedApart(free: seq<Range>, allocations: Allocations, capacity: nat, id: string)
    requires Tiled(free, allocations, capacity) && id in allocations && forall i | 0 <= i < |free| :: free[i].length > 0
    ensures forall i | 0 <= i < |free| ::
              free[i].End() <= allocations[id].start || allocations[id].End() <= free[i].start
  {
    var r := allocations[id];
    forall i | 0 <= i < |free| ensures free[i].End() <= r.start || r.End() <= free[i].start {
      var t := if free[i].start < r.start then r.start else free[i].start;
      if free[i].Has(t) && r.Has(t) { assert InSome(free, t) && Owned(allocations, t); }
    }
  }

  class ContiguousKVAllocator {
    const capacity: nat
    var freeRanges: seq<Range>
    var allocations: Allocations

    ghost predicate Valid()
      reads this
    {
      capacity > 0 && Coalesced(freeRanges) && Tiled(freeRanges, allocations, capacity)
    }

    constructor (capacity: nat)
      requires capacity > 0
      ensures Valid() && this.capacity == capacity && allocations == map[]
    {
      this.capacity, freeRanges, allocations := capacity, [Range(0, capacity)], map[];
      new;
      forall t: nat | t < capacity ensures InSome(freeRanges, t) { assert freeRanges[0].Has(t); }
    }

    // First fit: the lowest address at which enough consecutive tokens are free, and none
    // only if there is no such address.
    method Allocate(id: string, tokens: int) returns (r: Reply<Range>)
      requires Valid()
      modifies this
      ensures Valid()
      ensures r.Raised? <==> id == "" || tokens <= 0 || id in old(allocations)
      ensures r.Exhausted? <==> !r.Raised? && !exists s: nat :: FreeRun(old(allocations), capacity, s, tokens)
      ensures r.Ok? ==> && r.value.length == tokens && FreeRun(old(allocations), capacity, r.value.start, tokens)
                        && (forall s: nat | FreeRun(old(allocations), capacity, s, tokens) :: r.value.start <= s)
                        && allocations == old(allocations)[id := r.value]
      ensures !r.Ok? ==> allocations == old(allocations) && freeRanges == old(freeRanges)
    {
      if id == "" || tokens <= 0 || id in allocations {
        return Raised;
      }
      for i := 0 to |freeRanges|
        invariant freeRanges == old(freeRanges) && allocations == old(allocations)
        invariant forall k | 0 <= k < i :: freeRanges[k].length < tokens
      {
        if freeRanges[i].length >= tokens {
          var range := Range(freeRanges[i].start, tokens);
          RangeIsRun(freeRanges, allocations, capacity, i, tokens);
          forall s: nat | FreeRun(allocations, capacity, s, tokens) ensures range.start <= s {
            var k := RunInOneRange(freeRanges, allocations, capacity, s, tokens);
            if i < k { assert freeRanges[i].End() < freeRanges[k].start; }
          }
          TakenTiles(freeRanges, allocations, capacity, i, tokens, id);
          allocations, freeRanges := allocations[id := range], Taken(freeRanges, i, tokens);
          return Ok(range);
        }
      }
      forall s: nat ensures !FreeRun(allocations, capacity, s, tokens) {
        if FreeRun(allocations, capacity, s, tokens) {
          var k := RunInOneRange(freeRanges, allocations, capacity, s, tokens);
        }
      }
      return Exhausted;
    }

    method Release(id: string) returns (r: Reply<Range>)
      requires Valid()
      modifies this
      ensures Valid()
      ensures r == if id in old(allocations) then Ok(old(allocations)[id]) else Raised
      ensures allocations == old(allocations) - {id}
      ensures allocations == map[] ==> freeRanges == [Range(0, capacity)]
    {
      if id !in allocations {
        assert allocations - {id} == allocations;
        if allocations == map[] { EmptyIsOneRange(freeRanges, capacity); }
        return Raised;
      }
      var range := allocations[id];
      OwnedApart(freeRanges, allocations, capacity, id);
      var sorted := Inserted(freeRanges, range);
      var merged := Merged(sorted);
      assert forall i | 0 <= i < |sorted| :: sorted[i] in sorted;
      ReturnedTiles(freeRanges, allocations, capacity, id, sorted, merged);
      allocations, freeRanges := allocations - {id}, merged;
      if allocations == map[] { EmptyIsOneRange(freeRanges, capacity); }
      return Ok(range);
    }
  }

  // ---- accounting -------------------------------------------------------------------------

  function FreeTokens(ranges: seq<Range>): nat {
    if ranges == [] then 0 else FreeTokens(ranges[..|ranges| - 1]) + ranges[|ranges| - 1].length
  }

  ghost function TokensOf(ranges: seq<Range>, capacity: nat): set<nat> {
    set t: nat | 0 <= t < capacity && InSome(ranges, t)
  }

  // The reported number of free tokens is the number of tokens nobody owns.
  lemma {:induction false} FreeTokensCount(ranges: seq<Range>, capacity: nat)
    requires InOrder(ranges) && forall i | 0 <= i < |ranges| :: ranges[i].End() <= capacity
    ensures FreeTokens(ranges) == |TokensOf(ranges, capacity)|
  {
    if ranges == [] {
      assert TokensOf(ranges, capacity) == {};
    } else {
      var rest, last := ranges[..|ranges| - 1], ranges[|ranges| - 1];
      assert forall i | 0 <= i < |rest| :: rest[i] == ranges[i];
      FreeTokensCount(rest, capacity);
      LastCounts(ranges, capacity);
    }
  }

  lemma LastCounts(ranges: seq<Range>, capacity: nat)
    requires InOrder(ranges) && ranges != [] && ranges[|ranges| - 1].End() <= capacity
    ensures |TokensOf(ranges, capacity)| == |TokensOf(ranges[..|ranges| - 1], capacity)| + ranges[|ranges| - 1].length
  {
    var rest, last := ranges[..|ranges| - 1], ranges[|ranges| - 1];
    assert ranges == rest + [last];
    var span := Span(last.start, last.End());
    forall t: nat ensures InSome(ranges, t) <==> InSome(rest, t) || t in span { InSomeJoin(rest, [last], t); }
    LastApart(ranges);
    hide InSome, InOrder;
    assert TokensOf(ranges, capacity) == TokensOf(rest, capacity) + span;
    assert TokensOf(rest, capacity) !! span;
  }

  lemma LastApart(ranges: seq<Range>)
    requires InOrder(ranges) && ranges != []
    ensures var rest := ranges[..|ranges| - 1]; forall t: nat | InSome(rest, t) :: t < ranges[|ranges| - 1].start
  {
  }

  ghost function Span(a: nat, b: nat): (r: set<nat>)
    requires a <= b
    ensures |r| == b - a && forall t: nat :: t in r <==> a <= t < b
    decreases b
  {
    if a == b then {} else Span(a, b - 1) + {b - 1}
  }
}
