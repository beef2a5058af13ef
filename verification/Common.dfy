// Shared vocabulary: option and reply types, block arithmetic, distinct and ascending lists.
module Common {

  datatype Option<+T> = None | Some(value: T)

  // What the source's calls answer: a value, Python's `None` when the pool cannot serve
  // the request, or a raised exception (the state is then left as the source leaves it).
  datatype Reply<+T> = Ok(value: T) | Exhausted | Raised

  type Token = nat

  predicate Distinct<T(==)>(s: seq<T>) {
    forall i, j :: 0 <= i < j < |s| ==> s[i] != s[j]
  }

  predicate Ascending(s: seq<nat>) {
    forall i, j :: 0 <= i < j < |s| ==> s[i] < s[j]
  }

  // Some elements of `s`, in the same order.
  ghost predicate Subsequence<T>(r: seq<T>, s: seq<T>) {
    if r == [] then true
    else if s == [] then false
    else if r[|r| - 1] == s[|s| - 1] then Subsequence(r[..|r| - 1], s[..|s| - 1])
    else Subsequence(r, s[..|s| - 1])
  }

  lemma SubsequenceTakes<T>(r: seq<T>, s: seq<T>, x: T)
    requires Subsequence(r, s)
    ensures Subsequence(r + [x], s + [x])
  {
    assert (r + [x])[..|r|] == r && (s + [x])[..|s|] == s;
  }

  lemma SubsequenceSkips<T>(r: seq<T>, s: seq<T>, x: T)
    requires Subsequence(r, s) && x !in r
    ensures Subsequence(r, s + [x])
  {
    assert (s + [x])[..|s|] == s;
  }

  function Min(a: nat, b: nat): nat { if a < b then a else b }

  // Number of blocks of `size` tokens that cover `tokens` tokens.
  function BlocksFor(tokens: nat, size: nat): (k: nat)
    requires size > 0
    ensures tokens <= k * size < tokens + size
  {
    DivBounds(tokens + size - 1, size);
    (tokens + size - 1) / size
  }

  lemma DivBounds(x: nat, d: nat)
    requires d > 0
    ensures 0 <= (x / d) * d <= x < (x / d) * d + d
    ensures x == (x / d) * d + x % d
  {
  }

  lemma MulLess(a: int, b: int, d: nat)
    requires a * d < b * d
    ensures a < b
  {
    if a >= b { MulMono(b, a, d); }
  }

  lemma MulMono(a: int, b: int, d: nat)
    requires a <= b
    ensures a * d <= b * d
  {
  }

  lemma BlocksMonotone(a: nat, b: nat, size: nat)
    requires size > 0 && a <= b
    ensures BlocksFor(a, size) <= BlocksFor(b, size)
  {
    var p, q := BlocksFor(a, size), BlocksFor(b, size);
    assert (q + 1) * size == q * size + size;
    if p > q {
      MulMono(q + 1, p, size);
    }
  }

  // The quotient is the only block that contains a position.
  lemma DivUnique(x: nat, d: nat, k: nat)
    requires d > 0 && k * d <= x < k * d + d
    ensures x / d == k && x % d == x - k * d
  {
    DivBounds(x, d);
    var q := x / d;
    assert (k + 1) * d == k * d + d && (q + 1) * d == q * d + d;
    MulLess(q, k + 1, d);
    MulLess(k, q + 1, d);
  }

  // A slot lies within as many blocks as its block is one of.
  lemma PlaceFits(k: nat, slot: nat, size: nat, blocks: nat)
    requires k < blocks && slot < size
    ensures k * size + slot < blocks * size
  {
    MulMono(k + 1, blocks, size);
    assert (k + 1) * size == k * size + size;
  }

  // A position has one block and one slot.
  lemma SamePlace(j: nat, t: nat, k: nat, slot: nat, size: nat)
    requires t < size && slot < size && j * size + t == k * size + slot
    ensures j == k && t == slot
  {
    DivUnique(j * size + t, size, j);
    DivUnique(k * size + slot, size, k);
  }

  // The block and the slot of a position that lies within so many blocks.
  function PageAndSlot(i: nat, pages: nat, size: nat): (r: (nat, nat))
    requires size > 0 && i < pages * size
    ensures r.0 < pages && r.1 < size && i == r.0 * size + r.1 && r.0 == i / size && r.1 == i % size
  {
    DivBounds(i, size);
    MulLess(i / size, pages, size);
    (i / size, i % size)
  }

  lemma SubsetSize<T>(a: set<T>, b: set<T>)
    requires a <= b
    ensures |a| <= |b|
  {
    assert b == a + (b - a);
  }

  function Members(s: seq<nat>): set<nat> {
    set x | x in s
  }

  lemma DistinctSize(s: seq<nat>)
    requires Distinct(s)
    ensures |Members(s)| == |s|
  {
    if s == [] {
      assert Members(s) == {};
    } else {
      var t, last := s[..|s| - 1], s[|s| - 1];
      DistinctSize(t);
      assert s == t + [last] && last !in t;
      assert Members(s) == Members(t) + {last};
    }
  }
}
