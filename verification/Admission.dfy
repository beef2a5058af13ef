// Admission over a cached prefix (engine/scheduler/scheduler.py, `admit_available`).
module Admission {
  import opened Common
  import opened Ownership
  import opened Paging
  import opened PrefixForest
  import opened PrefixCaching
  import opened PagedStore
  import opened GreedyDecoding
  import opened Lifecycle
  import opened Yielding
  import opened CapacityFacts
  import opened Batching
  import opened Completion

  // The K/V of position p records the run before it.
  lemma {:induction false} KvOfAt(tokens: seq<Token>, p: nat)
    requires p < |tokens|
    ensures KvOf(tokens)[p] == Cell(KvOf(tokens[..p]), tokens[p])
    decreases |tokens|
  {
    var shorter := tokens[..|tokens| - 1];
    if p < |shorter| {
      KvOfAt(shorter, p);
      assert shorter[..p] == tokens[..p];
    }
  }

  // A radix hit's blocks hold exactly the matched prefix's K/V.
  lemma CoversStored(s: Store, tokens: seq<Token>, blocks: seq<nat>)
    requires Shaped(s) && CatalogHolds(s) && Covers(s.catalog, tokens, s.size, blocks) && |blocks| * s.size <= |tokens|
    ensures Stored(s.pool, s.size, blocks, KvOf(tokens[..|blocks| * s.size]))
  {
    hide KvOf, CatalogHolds;
    var prefix := tokens[..|blocks| * s.size];
    forall k | 0 <= k < |blocks|
      ensures blocks[k] < |s.pool| && |s.pool[blocks[k]]| == s.size
      ensures forall slot | 0 <= slot < s.size && k * s.size + slot < |prefix| ::
                s.pool[blocks[k]][slot] == KvOf(prefix)[k * s.size + slot]
    {
      CoveredPage(s, tokens, blocks, k);
    }
  }

  lemma CoveredPage(s: Store, tokens: seq<Token>, blocks: seq<nat>, k: nat)
    requires Shaped(s) && CatalogHolds(s) && Covers(s.catalog, tokens, s.size, blocks) && |blocks| * s.size <= |tokens|
    requires k < |blocks|
    ensures 0 <= k * s.size && (k + 1) * s.size <= |blocks| * s.size
    ensures blocks[k] < |s.pool| && |s.pool[blocks[k]]| == s.size
    ensures s.pool[blocks[k]] == KvOf(tokens[..|blocks| * s.size])[k * s.size..(k + 1) * s.size]
  {
    hide KvOf, Shaped, CatalogHolds, Blocks;
    BlockEnds(k, |blocks|, s.size);
    var lo, hi, end := k * s.size, (k + 1) * s.size, |blocks| * s.size;
    var p := Blocks(tokens, k + 1, s.size);
    assert p in s.catalog && s.catalog[p] == blocks[(k + 1) - 1];
    assert p == tokens[..end][..hi] by { BlocksCut(tokens, k + 1, s.size); }
    PublishedPage(s, p);
    PageOfPrefix(tokens[..end], lo, hi, s.size);
  }

  lemma BlockEnds(k: nat, blocks: nat, size: nat)
    requires k < blocks
    ensures 0 <= k * size <= (k + 1) * size <= blocks * size && (k + 1) * size == k * size + size
  {
    MulMono(k + 1, blocks, size);
  }

  lemma BlocksCut(tokens: seq<Token>, k: nat, size: nat)
    requires k * size <= |tokens|
    ensures Blocks(tokens, k, size) == tokens[..k * size]
  {
  }

  lemma PublishedPage(s: Store, p: seq<Token>)
    requires Shaped(s) && CatalogHolds(s) && p in s.catalog
    ensures s.size <= |p| && s.catalog[p] < |s.pool| && |s.pool[s.catalog[p]]| == s.size
    ensures s.pool[s.catalog[p]] == LastPage(p, s.size)
  {
    hide KvOf, LastPage;
  }

  lemma PageOfPrefix(tokens: seq<Token>, lo: nat, hi: nat, size: nat)
    requires lo + size == hi <= |tokens|
    ensures LastPage(tokens[..hi], size) == KvOf(tokens)[lo..hi]
  {
    hide KvOf;
    KvOfPrefix(tokens, hi);
    assert KvOf(tokens)[..hi][lo..] == KvOf(tokens)[lo..hi];
  }

  // Distinct prefixes have distinct pages: a page's first vector remembers how much came before.
  lemma CoversDistinct(s: Store, tokens: seq<Token>, blocks: seq<nat>)
    requires Shaped(s) && CatalogHolds(s) && Covers(s.catalog, tokens, s.size, blocks) && |blocks| * s.size <= |tokens|
    ensures Distinct(blocks)
  {
    hide CatalogHolds, Covers, Shaped;
    forall i, j | 0 <= i < j < |blocks| ensures blocks[i] != blocks[j] {
      CoveredFirst(s, tokens, blocks, i);
      CoveredFirst(s, tokens, blocks, j);
      MulMono(i + 1, j, s.size);
      assert (i + 1) * s.size == i * s.size + s.size;
    }
  }

  lemma CoveredFirst(s: Store, tokens: seq<Token>, blocks: seq<nat>, k: nat)
    requires Shaped(s) && CatalogHolds(s) && Covers(s.catalog, tokens, s.size, blocks) && |blocks| * s.size <= |tokens|
    requires k < |blocks|
    ensures blocks[k] < |s.pool| && |s.pool[blocks[k]]| == s.size > 0
    ensures s.pool[blocks[k]][0].Cell? && |s.pool[blocks[k]][0].past| == k * s.size
  {
    hide KvOf, CatalogHolds, Covers;
    CoveredPage(s, tokens, blocks, k);
    assert (k + 1) * s.size == k * s.size + s.size;
    KvOfAt(tokens[..|blocks| * s.size], k * s.size);
  }

  // What a usable match gives the request that takes it.
  ghost predicate Usable(s: Store, ids: seq<Token>, m: PrefixMatch, predict: seq<Slot> -> Token) {
    && m.blocks != [] && Distinct(m.blocks) && s.size > 0
    && (|m.blocks| - 1) * s.size < m.tokenCount <= |m.blocks| * s.size && m.tokenCount <= |ids|
    && (forall b: nat | b in m.blocks :: b < |s.pool| && CacheHolders(s.owned, b) != {})
    && Stored(s.pool, s.size, m.blocks, KvOf(ids[..m.tokenCount]))
    && |m.blocks| <= BlocksFor(|ids|, s.size)
    && (m.tokenCount == |ids| ==> m.nextToken == Some(predict(KvOf(ids))))
  }

  // A lookup with tokens to offer is usable: exact entries and radix paths alike.
  lemma HitIsUsable(s: Store, ids: seq<Token>, m: PrefixMatch, predict: seq<Slot> -> Token)
    requires Consistent(s, predict) && m.tokenCount > 0
    requires m.exact ==>
               ids in s.exact && m == PrefixMatch(s.exact[ids].blocks, |ids|, Some(s.exact[ids].nextToken), true)
    requires !m.exact ==> && m.nextToken == None && m.tokenCount == |m.blocks| * s.size && m.tokenCount < |ids|
                          && |m.blocks| <= ReusableBlocks(ids, s.size) && Covers(s.catalog, ids, s.size, m.blocks)
    ensures Usable(s, ids, m, predict)
  {
    if m.exact { ExactIsUsable(s, ids, m, predict); } else { RadixIsUsable(s, ids, m, predict); }
  }

  lemma ExactIsUsable(s: Store, ids: seq<Token>, m: PrefixMatch, predict: seq<Slot> -> Token)
    requires Consistent(s, predict) && m.tokenCount > 0
    requires ids in s.exact && m == PrefixMatch(s.exact[ids].blocks, |ids|, Some(s.exact[ids].nextToken), true)
    ensures Usable(s, ids, m, predict)
  {
    hide Stored, KvOf, CatalogHolds, Exclusive;
    assert EntryHolds(s, ids, predict);
    assert ids[..|ids|] == ids;
    assert |m.blocks| * s.size == (|m.blocks| - 1) * s.size + s.size;
    var n := |m.blocks|;
    assert n == 0 ==> n * s.size == 0;
  }

  lemma RadixIsUsable(s: Store, ids: seq<Token>, m: PrefixMatch, predict: seq<Slot> -> Token)
    requires Consistent(s, predict) && m.tokenCount > 0
    requires m.nextToken == None && m.tokenCount == |m.blocks| * s.size && m.tokenCount < |ids|
    requires |m.blocks| <= ReusableBlocks(ids, s.size) && Covers(s.catalog, ids, s.size, m.blocks)
    ensures Usable(s, ids, m, predict)
  {
    hide Stored, KvOf, CatalogHolds, Exclusive, EntryHolds, Shaped;
    assert s.size > 0 by { ShapedSize(s); }
    CoversStored(s, ids, m.blocks);
    CoversDistinct(s, ids, m.blocks);
    var n := |m.blocks|;
    assert n == 0 ==> n * s.size == 0;
    assert |m.blocks| * s.size == (|m.blocks| - 1) * s.size + s.size;
    ReusableFits(ids, s.size);
    CompleteWithinWhole(|ids|, s.size);
    forall b: nat | b in m.blocks ensures b < |s.pool| && CacheHolders(s.owned, b) != {} {
      var k :| 0 <= k < |m.blocks| && m.blocks[k] == b;
      assert Blocks(ids, k + 1, s.size) in s.catalog && s.catalog[Blocks(ids, k + 1, s.size)] == m.blocks[(k + 1) - 1];
    }
  }

  lemma ShapedSize(s: Store)
    requires Shaped(s)
    ensures s.size > 0
  {
  }

  // Refreshed access stamps change nothing that matters.
  lemma StampsIrrelevant(s: Store, w: Store, predict: seq<Slot> -> Token)
    requires Consistent(s, predict) && w == s.(exact := w.exact) && PrefixCaching.SameEntries(s.exact, w.exact)
    ensures Consistent(w, predict) && forall id | id in s.tables :: Undisturbed(s, w, id)
  {
    hide CatalogHolds, Stored, KvOf;
    forall id | id in s.tables ensures Undisturbed(s, w, id) && Exclusive(w, id) {
      Unchanged(s, id);
      CacheIrrelevant(s, s, w, id);
    }
    forall key | key in w.exact ensures EntryHolds(w, key, predict) { assert EntryHolds(s, key, predict); }
    SameCatalogAgain(s, w);
  }

  lemma SameCatalogAgain(s: Store, w: Store)
    requires CatalogHolds(s) && w == s.(exact := w.exact)
    ensures CatalogHolds(w)
  {
  }

  // ---- the table an admitted request starts from ------------------------------------------

  // At least as much of `ids` is reused as any published prefix or usable entry offers.
  ghost predicate ReusesLongest(s: Store, ids: seq<Token>, exactAllowed: bool, length: nat)
    requires s.size > 0
  {
    && (exactAllowed && ids in s.exact ==> length == |ids|)
    && forall j: nat | 0 < j <= ReusableBlocks(ids, s.size) && Blocks(ids, j, s.size) in s.catalog ::
         j * s.size <= length
  }

  lemma LookupReusesLongest(s: Store, ids: seq<Token>, exactAllowed: bool, m: PrefixMatch)
    requires s.size > 0 && (m.exact <==> exactAllowed && ids in s.exact) && (m.exact ==> m.tokenCount == |ids|)
    requires !m.exact ==> m.tokenCount == |m.blocks| * s.size
    requires !m.exact ==>
               forall j: nat | |m.blocks| < j <= ReusableBlocks(ids, s.size) :: Blocks(ids, j, s.size) !in s.catalog
    ensures ReusesLongest(s, ids, exactAllowed, m.tokenCount)
  {
    ReusableFits(ids, s.size);
    forall j: nat | 0 < j <= ReusableBlocks(ids, s.size) && Blocks(ids, j, s.size) in s.catalog
      ensures j * s.size <= m.tokenCount
    {
      if m.exact { LeavesOneToken(ids, j, s.size); } else { MulMono(j, |m.blocks|, s.size); }
    }
  }

  // A table over a matched prefix, or over a fresh first block.
  ghost predicate StartsFrom(s: Store, ids: seq<Token>, t: Table, next: Option<Token>, predict: seq<Slot> -> Token) {
    && t.blocks != [] && Distinct(t.blocks) && s.size > 0 && t.length <= t.Capacity(s.size) && t.length <= |ids|
    && (forall b: nat | b in t.blocks :: b < |s.pool|)
    && (|| ((forall b: nat | b in t.blocks :: Holders(s.owned, b) == {}) && t.length == 0)
        || ((forall b: nat | b in t.blocks :: CacheHolders(s.owned, b) != {}) && (|t.blocks| - 1) * s.size < t.length))
    && Stored(s.pool, s.size, t.blocks, KvOf(ids[..t.length]))
    && |t.blocks| <= BlocksFor(|ids|, s.size)
    && (t.length == |ids| ==> next == Some(predict(KvOf(ids))))
  }

  lemma HitStart(s: Store, ids: seq<Token>, m: PrefixMatch, predict: seq<Slot> -> Token)
    requires Usable(s, ids, m, predict)
    ensures StartsFrom(s, ids, Table(m.blocks, m.tokenCount), m.nextToken, predict)
  {
    hide Stored, KvOf;
  }

  lemma FreshStart(s: Store, ids: seq<Token>, blocks: seq<nat>, predict: seq<Slot> -> Token)
    requires Shaped(s) && ids != [] && |blocks| == BlocksFor(Min(|ids|, s.size), s.size) && Distinct(blocks)
    requires forall b: nat | b in blocks :: b < |s.pool| && Holders(s.owned, b) == {}
    ensures StartsFrom(s, ids, Table(blocks, 0), None, predict)
  {
    assert ids[..0] == [];
    BlocksMonotone(Min(|ids|, s.size), |ids|, s.size);
    var n := |blocks|;
    assert n == 0 ==> n * s.size == 0;
    assert forall k | 0 <= k < |blocks| :: blocks[k] in blocks;
    assert Stored(s.pool, s.size, blocks, []);
  }

  lemma FirstBlock(n: nat, size: nat)
    requires n > 0 && size > 0
    ensures BlocksFor(Min(n, size), size) == 1
  {
    var k, m := BlocksFor(Min(n, size), size), Min(n, size);
    if k > 1 { MulMono(2, k, size); }
    assert k == 0 ==> k * size == 0;
  }

  function Admitted(g: Generation, t: Table, next: Option<Token>): Generation {
    g.(phase := Prefilling, prefilled := t.length, cachedNext := next)
  }

  // The record of a queued request once it has a table: nothing else about it changes.
  ghost predicate JustAdmitted(g: Generation, h: Generation) {
    h == g.(phase := Prefilling, prefilled := h.prefilled, cachedNext := h.cachedNext)
  }

  lemma AdmittedIsPrefilling(g: Generation, t: Table, next: Option<Token>)
    ensures Admitted(g, t, next).phase.Prefilling? && JustAdmitted(g, Admitted(g, t, next))
  {
  }

  // An exact hit brings the first token along, so `INVALID_PREFIX_ENTRY` cannot happen.
  ghost predicate HitOk(g: Generation, predict: seq<Slot> -> Token) {
    FullyPrefilled(g) && !g.resuming ==> g.cachedNext == Some(predict(KvOf(g.prompt)))
  }

  lemma AdmittedOk(st: State, id: string, t: Table, next: Option<Token>, predict: seq<Slot> -> Token, eos: set<Token>)
    requires Inv(st, predict, eos) && id in st.waiting
    requires StartsFrom(st.store, st.gens[id].PrefillIds(), t, next, predict)
    ensures id !in st.store.tables && id !in st.active && id !in st.reserved
    ensures var g := Admitted(st.gens[id], t, next);
            && GenOk(g, predict, eos) && RowOk(WithTable(st.store, id, t), id, g) && Continues(st.gens[id], g)
            && HitOk(g, predict)
    ensures Consistent(WithTable(st.store, id, t), predict)
    ensures OthersUndisturbed(st.store, WithTable(st.store, id, t), id)
  {
    hide Stored, KvOf, Consistent, Undisturbed;
    assert Placed(st, id);
    var g := st.gens[id];
    assert GenOk(g, predict, eos);
    assert g.PrefillIds() == g.Tokens()[..|g.PrefillIds()|];
    assert g.PrefillIds()[..t.length] == g.Tokens()[..t.length];
    AdmitKeeps(st.store, id, t, predict);
  }

  lemma WaitingFacts(st: State, id: string, predict: seq<Slot> -> Token, eos: set<Token>)
    requires Inv(st, predict, eos) && id in st.waiting
    ensures id in st.gens && st.gens[id].phase.Waiting? && id !in st.active && id !in st.store.tables
    ensures id !in st.reserved
    ensures id != "" && st.gens[id].prompt != [] && st.gens[id].PrefillIds() != [] && GenOk(st.gens[id], predict, eos)
    ensures Distinct(st.waiting) && Consistent(st.store, predict)
  {
    assert Placed(st, id);
    assert GenOk(st.gens[id], predict, eos);
  }

  // Nobody acted: the store changed without touching any table.
  lemma QuietChangeKeepsInv(st: State, after: Store, id: string, predict: seq<Slot> -> Token, eos: set<Token>)
    requires Inv(st, predict, eos) && id in st.waiting
    requires Consistent(after, predict) && after.tables == st.store.tables
    requires forall x | x in st.store.tables :: Undisturbed(st.store, after, x)
    ensures Inv(st.(store := after), predict, eos)
  {
    hide Undisturbed, Consistent, RowOk, GenOk;
    WaitingFacts(st, id, predict, eos);
    StoreChangeKeepsInv(st, after, id, predict, eos);
  }

  lemma QuietTwice(a: Store, b: Store, c: Store)
    requires a.tables == b.tables && forall x | x in a.tables :: Undisturbed(a, b, x)
    requires forall x | x in b.tables :: Undisturbed(b, c, x)
    ensures forall x | x in a.tables :: Undisturbed(a, c, x)
  {
    hide Undisturbed;
    forall x | x in a.tables ensures Undisturbed(a, c, x) { UndisturbedTransitive(a, b, c, x); }
  }

  lemma QuietSelf(s: Store, predict: seq<Slot> -> Token)
    requires Consistent(s, predict)
    ensures forall x | x in s.tables :: Undisturbed(s, s, x)
  {
    hide Undisturbed;
    forall x | x in s.tables ensures Undisturbed(s, s, x) { Unchanged(s, x); }
  }

  // ---- everybody else during an admission -------------------------------------------------

  // An active request that took no part in a change.
  ghost predicate RowKept(a: State, b: State, id: string) {
    && id in a.active && id in b.active && id in a.gens && id in b.gens && b.gens[id] == a.gens[id]
    && Undisturbed(a.store, b.store, id)
  }

  lemma RowsKeptQuietly(a: State, b: State, predict: seq<Slot> -> Token, eos: set<Token>)
    requires Inv(a, predict, eos) && b == a.(store := b.store) && b.store.tables == a.store.tables
    requires forall x | x in a.store.tables :: Undisturbed(a.store, b.store, x)
    ensures forall x | x in a.active :: RowKept(a, b, x)
  {
    hide Undisturbed, RowOk, GenOk;
  }

  lemma RowsKeptOnAdmission(a: State, middle: State, b: State, id: string, predict: seq<Slot> -> Token, eos: set<Token>)
    requires forall x | x in a.active :: RowKept(a, middle, x)
    requires id !in a.active && OthersUndisturbed(middle.store, b.store, id) && a.active <= middle.store.tables.Keys
    requires a.active <= b.active && middle.gens == a.gens && id in b.gens && b.gens == a.gens[id := b.gens[id]]
    requires id in a.gens && Continues(a.gens[id], b.gens[id])
    ensures forall x | x in a.active :: RowKept(a, b, x)
    ensures Evolves(a.gens, b.gens) && b.gens.Keys == a.gens.Keys
  {
    hide Undisturbed, Continues;
    EvolvesSelf(a.gens);
    forall x | x in a.active ensures RowKept(a, b, x) {
      UndisturbedTransitive(a.store, middle.store, b.store, x);
    }
  }

  lemma EvolvesSelf(gens: map<string, Generation>)
    ensures Evolves(gens, gens)
  {
  }

  lemma HeadFacts(st: State, predict: seq<Slot> -> Token, eos: set<Token>)
    requires Inv(st, predict, eos) && st.waiting != []
    ensures st.waiting[0] in st.waiting && Distinct(st.waiting[1..])
    ensures forall x :: x in st.waiting[1..] <==> x in st.waiting && x != st.waiting[0]
    ensures st.active <= st.gens.Keys && st.active <= st.store.tables.Keys
  {
    assert st.waiting == [st.waiting[0]] + st.waiting[1..];
  }

  lemma StoreShape(s: Store, predict: seq<Slot> -> Token)
    requires Consistent(s, predict)
    ensures Shaped(s)
  {
  }

  // ---- the admission loop -----------------------------------------------------------------

  // Yielded before the last release of memory: retrying now would only rebuild and yield again.
  predicate Parked(g: Generation, epoch: nat, active: set<string>) {
    g.recomputing && g.preemptedAtEpoch >= epoch && active != {}
  }

  lemma ParkedMeans(g: Generation, epoch: nat, active: set<string>)
    ensures Parked(g, epoch, active) <==> g.recomputing && g.preemptedAtEpoch >= epoch && active != {}
  {
  }

  predicate Fits(g: Generation, capacity: nat) { |g.prompt| + g.maxNew <= capacity }

  // The queued requests that can ever be served, in queue order.
  function Fitting(gens: map<string, Generation>, queue: seq<string>, capacity: nat): (r: seq<string>)
    requires forall x | x in queue :: x in gens
    ensures Subsequence(r, queue) && forall x :: x in r <==> x in queue && Fits(gens[x], capacity)
  {
    if queue == [] then []
    else
      var last := queue[|queue| - 1];
      assert queue == queue[..|queue| - 1] + [last];
      var rest := Fitting(gens, queue[..|queue| - 1], capacity);
      if Fits(gens[last], capacity) then
        SubsequenceTakes(rest, queue[..|queue| - 1], last);
        rest + [last]
      else
        SubsequenceSkips(rest, queue[..|queue| - 1], last);
        rest
  }

  ghost function Named(ids: seq<string>): set<string> { set x | x in ids }

  // None of these yielded before the last release of memory, except possibly the first one
  // admitted into an idle engine.
  ghost predicate NoneParked(gens: map<string, Generation>, admitted: seq<string>, idle: bool, epoch: nat) {
    forall i | 0 <= i < |admitted| && !(idle && i == 0) ::
      admitted[i] in gens && !(gens[admitted[i]].recomputing && gens[admitted[i]].preemptedAtEpoch >= epoch)
  }

  lemma NobodyAdmitted(gens: map<string, Generation>, idle: bool, epoch: nat)
    ensures NoneParked(gens, [], idle, epoch)
  {
  }

  lemma AnotherAdmitted(gens: map<string, Generation>, admitted: seq<string>, id: string, idle: bool, epoch: nat,
                        active: set<string>)
    requires NoneParked(gens, admitted, idle, epoch) && id in gens && !Parked(gens[id], epoch, active)
    requires active == {} ==> idle && admitted == []
    ensures NoneParked(gens, admitted + [id], idle, epoch)
  {
  }

  lemma JoinsLine(order: seq<string>, id: string)
    requires Distinct(order) && id !in order
    ensures Distinct(order + [id]) && forall x :: x in order + [id] <==> x in order || x == id
  {
  }

  function Rejection(g: Generation): Generation { g.(phase := Rejected, reason := KvCapacityExceeded) }

  // All of these were admitted over a table of their own.
  ghost predicate AllJoined(before: map<string, Generation>, gens: map<string, Generation>, ids: seq<string>,
                            predict: seq<Slot> -> Token)
  {
    forall x | x in ids ::
      && x in before && x in gens && gens[x].phase.Prefilling? && HitOk(gens[x], predict)
      && JustAdmitted(before[x], gens[x])
  }

  lemma OneMoreJoined(before: map<string, Generation>, gens: map<string, Generation>, next: map<string, Generation>,
                      ids: seq<string>, id: string, predict: seq<Slot> -> Token)
    requires AllJoined(before, gens, ids, predict) && next.Keys == gens.Keys
    requires forall x | x in gens && x != id :: next[x] == gens[x]
    requires id !in ids && id in before && id in gens && gens[id] == before[id]
    ensures AllJoined(before, next, ids, predict)
    ensures next[id].phase.Prefilling? && HitOk(next[id], predict) && JustAdmitted(gens[id], next[id]) ==>
              AllJoined(before, next, ids + [id], predict)
  {
    hide HitOk;
  }

  // First come, first served: the first k queued requests have left the queue, in order; those
  // that can ever fit were admitted and the others rejected.
  ghost predicate QueueServed(a: State, now: State, k: nat, admitted: seq<string>, capacity: nat,
                              predict: seq<Slot> -> Token)
  {
    && k <= |a.waiting| && now.waiting == a.waiting[k..] && now.gens.Keys == a.gens.Keys
    && (forall x | x in a.waiting :: x in a.gens)
    && admitted == Fitting(a.gens, a.waiting[..k], capacity)
    && now.active == a.active + Named(admitted)
    && AllJoined(a.gens, now.gens, admitted, predict)
    && (forall x | x in a.waiting[..k] && !Fits(a.gens[x], capacity) :: now.gens[x] == Rejection(a.gens[x]))
    && (forall x | x in a.gens && x !in a.waiting[..k] :: now.gens[x] == a.gens[x])
  }

  // Admission, while nobody else notices.
  ghost predicate Admitting(a: State, now: State, k: nat, admitted: seq<string>, capacity: nat,
                            predict: seq<Slot> -> Token)
  {
    && QueueServed(a, now, k, admitted, capacity, predict)
    && now.reserved == a.reserved && Evolves(a.gens, now.gens)
    && forall x | x in a.active :: RowKept(a, now, x)
  }

  lemma StartAdmitting(st: State, capacity: nat, predict: seq<Slot> -> Token, eos: set<Token>)
    requires Inv(st, predict, eos)
    ensures Admitting(st, st, 0, [], capacity, predict) && Distinct(st.waiting)
  {
    hide RowOk, GenOk, Undisturbed;
    EvolvesSelf(st.gens);
    QuietSelf(st.store, predict);
    assert st.waiting[..0] == [] && st.waiting[0..] == st.waiting;
  }

  lemma HeadOf(a: State, now: State, k: nat, admitted: seq<string>, capacity: nat, predict: seq<Slot> -> Token)
    requires QueueServed(a, now, k, admitted, capacity, predict) && now.waiting != [] && Distinct(a.waiting)
    ensures k < |a.waiting| && now.waiting[0] == a.waiting[k] && now.waiting[1..] == a.waiting[k + 1..]
    ensures a.waiting[..k + 1] == a.waiting[..k] + [a.waiting[k]] && a.waiting[k] !in a.waiting[..k]
    ensures a.waiting[k] in a.gens && a.waiting[k] in now.gens && now.gens[a.waiting[k]] == a.gens[a.waiting[k]]
  {
    hide HitOk, Fits, Fitting;
    assert a.waiting[k] in a.waiting;
  }

  lemma RowKeptTwice(a: State, b: State, c: State, id: string)
    requires RowKept(a, b, id) && RowKept(b, c, id)
    ensures RowKept(a, c, id)
  {
    UndisturbedTransitive(a.store, b.store, c.store, id);
  }

  // The head of the queue was admitted, or rejected.
  lemma HeadLeft(a: State, now: State, next: State, k: nat, admitted: seq<string>, capacity: nat,
                 predict: seq<Slot> -> Token)
    requires Admitting(a, now, k, admitted, capacity, predict) && now.waiting != [] && Distinct(a.waiting)
    requires next.reserved == now.reserved && next.waiting == now.waiting[1..] && next.gens.Keys == now.gens.Keys
    requires Evolves(now.gens, next.gens)
    requires forall x | x in now.active :: RowKept(now, next, x)
    requires forall x | x in now.gens && x != now.waiting[0] :: next.gens[x] == now.gens[x]
    requires var id := now.waiting[0];
             id in now.gens &&
             if Fits(now.gens[id], capacity)
             then && next.active == now.active + {id} && next.gens[id].phase.Prefilling?
                  && HitOk(next.gens[id], predict) && JustAdmitted(now.gens[id], next.gens[id])
             else next.active == now.active && next.gens[id] == Rejection(now.gens[id])
    ensures var id := now.waiting[0];
            var more := if Fits(now.gens[id], capacity) then admitted + [id] else admitted;
            Admitting(a, next, k + 1, more, capacity, predict)
  {
    hide RowKept, QueueServed, Continues, Evolves;
    EvolvesOn(a.gens, now.gens, next.gens);
    AdmittedAreActive(a, now, k, admitted, capacity, predict);
    forall x | x in a.active ensures RowKept(a, next, x) { RowKeptTwice(a, now, next, x); }
    HeadServed(a, now, next, k, admitted, capacity, predict);
  }

  lemma HeadServed(a: State, now: State, next: State, k: nat, admitted: seq<string>, capacity: nat,
                   predict: seq<Slot> -> Token)
    requires QueueServed(a, now, k, admitted, capacity, predict) && now.waiting != [] && Distinct(a.waiting)
    requires next.waiting == now.waiting[1..] && next.gens.Keys == now.gens.Keys
    requires forall x | x in now.gens && x != now.waiting[0] :: next.gens[x] == now.gens[x]
    requires var id := now.waiting[0];
             id in now.gens &&
             if Fits(now.gens[id], capacity)
             then && next.active == now.active + {id} && next.gens[id].phase.Prefilling?
                  && HitOk(next.gens[id], predict) && JustAdmitted(now.gens[id], next.gens[id])
             else next.active == now.active && next.gens[id] == Rejection(now.gens[id])
    ensures var id := now.waiting[0];
            var more := if Fits(now.gens[id], capacity) then admitted + [id] else admitted;
            QueueServed(a, next, k + 1, more, capacity, predict)
  {
    hide QueueServed, HitOk, Fits, Rejection;
    HeadOf(a, now, k, admitted, capacity, predict);
    if Fits(now.gens[now.waiting[0]], capacity) {
      HeadAdmitted(a, now, next, k, admitted, capacity, predict);
    } else {
      HeadRejected(a, now, next, k, admitted, capacity, predict);
    }
  }

  lemma HeadAdmitted(a: State, now: State, next: State, k: nat, admitted: seq<string>, capacity: nat,
                     predict: seq<Slot> -> Token)
    requires QueueServed(a, now, k, admitted, capacity, predict) && now.waiting != [] && Distinct(a.waiting)
    requires next.waiting == now.waiting[1..] && next.gens.Keys == now.gens.Keys && now.waiting[0] in now.gens
    requires forall x | x in now.gens && x != now.waiting[0] :: next.gens[x] == now.gens[x]
    requires Fits(now.gens[now.waiting[0]], capacity) && next.active == now.active + {now.waiting[0]}
    requires next.gens[now.waiting[0]].phase.Prefilling? && HitOk(next.gens[now.waiting[0]], predict)
    requires JustAdmitted(now.gens[now.waiting[0]], next.gens[now.waiting[0]])
    ensures QueueServed(a, next, k + 1, admitted + [now.waiting[0]], capacity, predict)
  {
    hide HitOk, Fits, Fitting, Distinct, Rejection, Named, AllJoined, JustAdmitted;
    HeadOf(a, now, k, admitted, capacity, predict);
    FittingGrows(a.gens, a.waiting, k, capacity);
    OneMoreJoined(a.gens, now.gens, next.gens, admitted, a.waiting[k], predict);
    NamedGrows(admitted, a.waiting[k]);
  }

  lemma HeadRejected(a: State, now: State, next: State, k: nat, admitted: seq<string>, capacity: nat,
                     predict: seq<Slot> -> Token)
    requires QueueServed(a, now, k, admitted, capacity, predict) && now.waiting != [] && Distinct(a.waiting)
    requires next.waiting == now.waiting[1..] && next.gens.Keys == now.gens.Keys && now.waiting[0] in now.gens
    requires forall x | x in now.gens && x != now.waiting[0] :: next.gens[x] == now.gens[x]
    requires !Fits(now.gens[now.waiting[0]], capacity) && next.active == now.active
    requires next.gens[now.waiting[0]] == Rejection(now.gens[now.waiting[0]])
    ensures QueueServed(a, next, k + 1, admitted, capacity, predict)
  {
    hide HitOk, Fits, Fitting, Distinct, Rejection, Named, AllJoined, JustAdmitted;
    HeadOf(a, now, k, admitted, capacity, predict);
    FittingGrows(a.gens, a.waiting, k, capacity);
    OneMoreJoined(a.gens, now.gens, next.gens, admitted, a.waiting[k], predict);
  }

  lemma NamedGrows(ids: seq<string>, id: string)
    ensures Named(ids + [id]) == Named(ids) + {id}
  {
  }

  lemma FittingGrows(gens: map<string, Generation>, queue: seq<string>, k: nat, capacity: nat)
    requires k < |queue| && forall x | x in queue :: x in gens
    ensures forall x | x in queue[..k] || x in queue[..k + 1] :: x in queue
    ensures queue[k] in queue
    ensures Fitting(gens, queue[..k + 1], capacity)
         == if Fits(gens[queue[k]], capacity) then Fitting(gens, queue[..k], capacity) + [queue[k]]
            else Fitting(gens, queue[..k], capacity)
  {
    assert queue[..k + 1][..k] == queue[..k];
  }

  lemma RejectionOk(st: State, id: string, rest: seq<string>, predict: seq<Slot> -> Token, eos: set<Token>)
    requires Inv(st, predict, eos) && id in st.waiting && Distinct(rest)
    requires forall x :: x in rest <==> x in st.waiting && x != id
    ensures id in st.gens
    ensures var w := st.(gens := st.gens[id := Rejection(st.gens[id])], waiting := rest);
            && Inv(w, predict, eos) && Evolves(st.gens, w.gens)
            && forall x | x in st.active :: RowKept(st, w, x)
  {
    hide Consistent, Inv, Undisturbed;
    WaitingFacts(st, id, predict, eos);
    QueueKeepsInv(st, id, Rejection(st.gens[id]), rest, predict, eos);
    QuietSelf(st.store, predict);
    forall x | x in st.active ensures x in st.gens && x in st.store.tables { ActiveRow(st, x, predict, eos); }
  }

  // A failed attempt to admit the head changes nobody.
  lemma StillAdmitting(a: State, now: State, next: State, k: nat, admitted: seq<string>, capacity: nat,
                       predict: seq<Slot> -> Token)
    requires Admitting(a, now, k, admitted, capacity, predict)
    requires next.reserved == now.reserved && next.waiting == now.waiting && next.gens == now.gens
    requires next.active == now.active
    requires forall x | x in now.active :: RowKept(now, next, x)
    ensures Admitting(a, next, k, admitted, capacity, predict)
  {
    hide RowKept, HitOk, Fits, Evolves, Fitting;
    forall x | x in a.active ensures RowKept(a, next, x) { RowKeptTwice(a, now, next, x); }
  }

  lemma ServedSoFar(a: State, now: State, k: nat, admitted: seq<string>, capacity: nat, predict: seq<Slot> -> Token)
    requires Admitting(a, now, k, admitted, capacity, predict) && now.waiting != [] && Distinct(a.waiting)
    ensures now.waiting[0] in a.gens && now.waiting[0] in now.gens && now.gens[now.waiting[0]] == a.gens[now.waiting[0]]
    ensures forall x | x in admitted :: x in now.active
  {
    hide RowKept, Evolves, QueueServed;
    HeadOf(a, now, k, admitted, capacity, predict);
    AdmittedAreActive(a, now, k, admitted, capacity, predict);
  }

  lemma AdmittedAreActive(a: State, now: State, k: nat, admitted: seq<string>, capacity: nat,
                          predict: seq<Slot> -> Token)
    requires QueueServed(a, now, k, admitted, capacity, predict)
    ensures forall x | x in admitted :: x in now.active
    ensures a.active <= now.active
  {
    hide Fitting;
  }

  // ---- exact hits -------------------------------------------------------------------------

  // A freshly admitted request; if its whole prompt was cached, its first token is at hand.
  ghost predicate HitReady(st: State, id: string, predict: seq<Slot> -> Token) {
    && id in st.active && id in st.gens && st.gens[id].phase.Prefilling? && HitOk(st.gens[id], predict)
  }

  lemma HitReadyFacts(st: State, id: string, predict: seq<Slot> -> Token)
    requires HitReady(st, id, predict)
    ensures id in st.active && id in st.gens && st.gens[id].phase.Prefilling?
    ensures FullyPrefilled(st.gens[id]) && !st.gens[id].resuming ==>
              st.gens[id].cachedNext == Some(predict(KvOf(st.gens[id].prompt)))
  {
  }

  // What becomes of a freshly admitted request before the next forward pass.
  function Started(g: Generation, eos: set<Token>): Generation {
    if FullyPrefilled(g) then Completed(g, g.cachedNext, eos) else g
  }

  // Requests whose whole prompt was cached start decoding; nobody else moves.
  ghost predicate HitsDone(a: State, b: State, admitted: seq<string>, eos: set<Token>) {
    && Moved(a, b, Named(admitted))
    && forall x | x in admitted :: x in a.gens && x in b.gens && b.gens[x] == Started(a.gens[x], eos)
  }

  lemma StartHits(st: State, admitted: seq<string>, predict: seq<Slot> -> Token, eos: set<Token>)
    requires Inv(st, predict, eos) && forall x | x in admitted :: HitReady(st, x, predict)
    ensures HitsDone(st, st, admitted[..0], eos)
    ensures forall j | 0 <= j < |admitted| :: HitReady(st, admitted[j], predict)
  {
    hide Inv, HitReady;
    MovedNothing(st, predict, eos);
    assert Named(admitted[..0]) == {};
  }

  lemma HitDone(a: State, turn: State, now: State, admitted: seq<string>, i: nat, predict: seq<Slot> -> Token,
                eos: set<Token>)
    requires i < |admitted| && Distinct(admitted) && HitsDone(a, turn, admitted[..i], eos)
    requires Moved(turn, now, {admitted[i]})
    requires forall j | i <= j < |admitted| :: HitReady(turn, admitted[j], predict)
    requires admitted[i] in turn.gens && admitted[i] in now.gens
    requires now.gens[admitted[i]] == Started(turn.gens[admitted[i]], eos)
    ensures HitsDone(a, now, admitted[..i + 1], eos)
    ensures forall j | i < j < |admitted| :: HitReady(now, admitted[j], predict)
  {
    hide Undisturbed, Continues, HitOk, Started;
    MovedOn(a, turn, now, Named(admitted[..i]), {admitted[i]});
    assert admitted[..i + 1] == admitted[..i] + [admitted[i]];
    NamedGrows(admitted[..i], admitted[i]);
  }

  lemma HitArchived(a: State, turn: State, now: State, admitted: seq<string>, i: nat, eos: set<Token>)
    requires i < |admitted| && Distinct(admitted) && HitsDone(a, turn, admitted[..i], eos)
    requires Moved(turn, now, {admitted[i]}) && Archived(a, turn) && Archived(turn, now)
    ensures Archived(a, now)
  {
    hide Moved, Archived, Started;
    ArchivedOn(a, turn, now, Named(admitted[..i]), admitted[i]);
  }

  lemma HitsTicked(a: State, first: nat, turn: State, second: nat, now: State, third: nat, admitted: seq<string>,
                   i: nat, eos: set<Token>)
    requires i < |admitted| && HitsDone(a, turn, admitted[..i], eos) && Moved(turn, now, {admitted[i]})
    requires Ticked(a, first, turn, second) && Ticked(turn, second, now, third)
    ensures Ticked(a, first, now, third)
  {
    hide Moved, Started;
    MovedTicked(a, first, turn, second, now, third, Named(admitted[..i]), {admitted[i]});
  }

  lemma {:induction false} FittingDistinct(gens: map<string, Generation>, queue: seq<string>, capacity: nat)
    requires Distinct(queue) && forall x | x in queue :: x in gens
    ensures Distinct(Fitting(gens, queue, capacity))
  {
    if queue != [] {
      var last := queue[|queue| - 1];
      assert queue == queue[..|queue| - 1] + [last];
      FittingDistinct(gens, queue[..|queue| - 1], capacity);
      var rest := Fitting(gens, queue[..|queue| - 1], capacity);
      assert forall i | 0 <= i < |rest| :: rest[i] in rest && rest[i] in queue[..|queue| - 1];
      assert last !in queue[..|queue| - 1];
    }
  }

  lemma AdmittedHits(a: State, now: State, k: nat, admitted: seq<string>, capacity: nat, predict: seq<Slot> -> Token,
                     eos: set<Token>)
    requires Inv(a, predict, eos) && Admitting(a, now, k, admitted, capacity, predict)
    ensures Distinct(admitted) && forall x | x in admitted :: HitReady(now, x, predict) && x !in a.active
    ensures Evolves(a.gens, now.gens)
  {
    hide GenOk, RowOk, Consistent, RowKept, HitOk, Evolves;
    AdmittedAreActive(a, now, k, admitted, capacity, predict);
    assert Distinct(a.waiting[..k]);
    FittingDistinct(a.gens, a.waiting[..k], capacity);
    forall x | x in admitted ensures x !in a.active {
      assert x in a.waiting;
      assert Placed(a, x);
    }
  }

  // Admission and the exact hits give no token to whoever had some before.
  lemma AdmissionTurned(a: State, joined: State, b: State, admitted: seq<string>, k: nat, capacity: nat,
                        predict: seq<Slot> -> Token, eos: set<Token>)
    requires Inv(joined, predict, eos) && Admitting(a, joined, k, admitted, capacity, predict)
    requires HitsDone(joined, b, admitted, eos)
    ensures Turned(a.gens, b.gens, {}, map[], predict, eos)
  {
    hide Inv, RowKept, Evolves, HitOk, Undisturbed, Fitting, TurnMade;
    forall x | x in a.gens && x in b.gens && a.gens[x].outputs != [] ensures b.gens[x].outputs == a.gens[x].outputs {
      JoinedOutputs(a, joined, k, admitted, capacity, predict, x);
      if x in admitted { HistoryOnly(joined, x, predict, eos); }
    }
  }

  // Nobody ends at admission but who can never fit, and nobody else but by its first token.
  lemma AdmissionEndings(a: State, joined: State, b: State, admitted: seq<string>, k: nat, capacity: nat,
                         predict: seq<Slot> -> Token, eos: set<Token>)
    requires Inv(joined, predict, eos) && Admitting(a, joined, k, admitted, capacity, predict)
    requires HitsDone(joined, b, admitted, eos)
    ensures Endings(a.gens, b.gens, capacity)
  {
    hide Inv, RowKept, HitOk, Undisturbed, Evolves, Fitting;
    assert Endings(a.gens, joined.gens, capacity) by { QueueEndings(a, joined, k, admitted, capacity, predict); }
    assert Endings(joined.gens, b.gens, capacity) by {
      forall x | x in joined.gens && x in b.gens && joined.gens[x].Live() && !b.gens[x].Live()
        ensures Ending(joined.gens[x], b.gens[x], capacity)
      {
        if x in admitted { HitEnds(joined, x, predict, eos); }
      }
    }
    EndingsOn(a.gens, joined.gens, b.gens, capacity);
  }

  lemma QueueEndings(a: State, joined: State, k: nat, admitted: seq<string>, capacity: nat, predict: seq<Slot> -> Token)
    requires Admitting(a, joined, k, admitted, capacity, predict)
    ensures Endings(a.gens, joined.gens, capacity)
  {
    hide RowKept, HitOk, Evolves;
  }

  lemma HitEnds(st: State, id: string, predict: seq<Slot> -> Token, eos: set<Token>)
    requires Inv(st, predict, eos) && id in st.gens && st.gens[id].phase.Prefilling? && HitOk(st.gens[id], predict)
    ensures Started(st.gens[id], eos).Live() || Started(st.gens[id], eos).phase.Finished?
  {
    hide Consistent, RowOk;
    assert GenOk(st.gens[id], predict, eos);
  }

  // What the admission loop did to the queue, in terms of sizes alone: whoever left it was
  // rejected exactly if it asks for more tokens than there can ever be.
  ghost predicate QueueSifted(before: map<string, Generation>, after: map<string, Generation>, capacity: int) {
    forall x | x in before && x in after && before[x].phase.Waiting? && !after[x].phase.Waiting? ::
      if |before[x].prompt| + before[x].maxNew > capacity
      then after[x].phase.Rejected? && after[x].reason.KvCapacityExceeded?
      else after[x].phase.Prefilling?
  }

  lemma QueueIsSifted(a: State, now: State, k: nat, admitted: seq<string>, capacity: nat, predict: seq<Slot> -> Token)
    requires Admitting(a, now, k, admitted, capacity, predict)
    ensures QueueSifted(a.gens, now.gens, capacity)
  {
    hide RowKept, HitOk, Evolves;
  }

  // The loop only stops for an empty queue, taken slots, exhausted memory, or a head that yielded
  // and has to wait for the next release while others run.
  ghost predicate HeadHeld(st: State, maxActive: nat, starved: bool, epoch: nat) {
    st.waiting != [] && |st.active| < maxActive && !starved ==>
      && st.active != {} && st.waiting[0] in st.gens
      && st.gens[st.waiting[0]].recomputing && st.gens[st.waiting[0]].preemptedAtEpoch >= epoch
  }

  lemma JoinedOutputs(a: State, joined: State, k: nat, admitted: seq<string>, capacity: nat,
                      predict: seq<Slot> -> Token, x: string)
    requires Admitting(a, joined, k, admitted, capacity, predict) && x in a.gens
    ensures x in joined.gens && joined.gens[x].outputs == a.gens[x].outputs
  {
    hide RowKept, Evolves, HitOk;
  }

  lemma HistoryOnly(st: State, id: string, predict: seq<Slot> -> Token, eos: set<Token>)
    requires Inv(st, predict, eos) && id in st.gens && st.gens[id].outputs != []
    ensures Started(st.gens[id], eos).outputs == st.gens[id].outputs
  {
    hide Consistent, RowOk;
    assert GenOk(st.gens[id], predict, eos);
  }

  // Decode rows that found room before admission still have it after the admissions and the
  // exact hits among them.
  lemma RowsThroughAdmission(a: State, joined: State, b: State, rows: seq<Plan>, admitted: seq<string>, k: nat,
                             capacity: nat, predict: seq<Slot> -> Token)
    requires RowsOk(a, rows, map[], false)
    requires forall plan | plan in rows :: plan.id in a.gens && a.gens[plan.id].phase.Decoding?
    requires Admitting(a, joined, k, admitted, capacity, predict) && forall x | x in admitted :: x !in a.active
    requires Moved(joined, b, Named(admitted))
    ensures RowsOk(b, rows, map[], false)
    ensures forall plan | plan in rows :: plan.id in b.gens && b.gens[plan.id].phase.Decoding?
  {
    hide Ready, Undisturbed, Moved, QueueServed, Evolves;
    forall plan | plan in rows
      ensures RowReady(b, plan) && RowShape(b.gens, plan, map[], false) && b.gens[plan.id].phase.Decoding?
    {
      assert RowReady(a, plan) && RowShape(a.gens, plan, map[], false);
      RowReadyFacts(a, plan);
      ReadyKept(a, joined, plan.id, plan.count);
      RowReadyKept(joined, b, Named(admitted), plan);
      MovedKeepsReady(joined, b, Named(admitted), plan.id, plan.count);
      RowReadyFacts(b, plan);
    }
  }

  // ---- arrivals and cancellations ---------------------------------------------------------

  function Arriving(prompt: seq<Token>, maxNew: nat, greedy: bool, stops: set<Token>, ignoreEos: bool,
                    created: nat): Generation
  {
    Generation(created, prompt, maxNew, greedy, stops, ignoreEos, Waiting, [], None, 0, None, false, false, 0, NoReason)
  }

  lemma ArrivingOk(prompt: seq<Token>, maxNew: nat, greedy: bool, stops: set<Token>, ignoreEos: bool, created: nat,
                   predict: seq<Slot> -> Token, eos: set<Token>)
    requires prompt != [] && maxNew > 0
    ensures var g := Arriving(prompt, maxNew, greedy, stops, ignoreEos, created);
            GenOk(g, predict, eos) && GenOk(g.(phase := Rejected, reason := QueueFull), predict, eos)
  {
  }

  lemma JoinsQueue(st: State, id: string, predict: seq<Slot> -> Token, eos: set<Token>)
    requires Inv(st, predict, eos) && id !in st.waiting
    ensures Distinct(st.waiting) && Distinct(st.waiting + [id])
  {
    hide Consistent, RowOk, GenOk, Placed;
  }

  lemma CancelledOk(g: Generation, predict: seq<Slot> -> Token, eos: set<Token>)
    requires GenOk(g, predict, eos) && g.Live()
    ensures GenOk(g.(phase := Cancelled, reason := CancelledByClient), predict, eos)
    ensures Continues(g, g.(phase := Cancelled, reason := CancelledByClient))
  {
  }

  lemma AllTables(st: State, predict: seq<Slot> -> Token, eos: set<Token>)
    requires Inv(st, predict, eos)
    ensures st.active <= st.store.tables.Keys && st.active <= st.gens.Keys
    ensures forall x | x in st.active :: Undisturbed(st.store, st.store, x)
    ensures forall id :: InvBut(st, id, predict, eos)
  {
    hide Undisturbed;
    forall x | x in st.active ensures Undisturbed(st.store, st.store, x) { Unchanged(st.store, x); }
    forall id ensures InvBut(st, id, predict, eos) { InvIsInvBut(st, id, predict, eos); }
  }
}
