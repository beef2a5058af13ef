// Two states of the engine in which the only request there is cannot get its next token although
// it was admitted within the pool's capacity (engine/scheduler/scheduler.py,
// engine/cache/prefix.py, engine/batching/continuous_batching.py).
module StarvedStates {
  import opened Common
  import opened Ownership
  import opened Paging
  import opened PrefixForest
  import opened Reclaiming
  import opened PrefixCaching
  import opened PagedStore
  import opened GreedyDecoding
  import opened Lifecycle
  import opened Arrival
  import opened Yielding
  import opened Prospects
  import opened CapacityFacts
  import opened Batching
  import opened Admission
  import opened Iterations
  import opened Alone

  // A greedy request right after its prefill, with its first token pending.
  function Started(created: nat, prompt: seq<Token>, maxNew: nat, next: Token): Generation {
    Generation(created, prompt, maxNew, true, {}, true, Decoding, [next], Some(next), |prompt|, None, false, false, 0,
               NoReason)
  }

  // One that wanted a single token and has it.
  function Done(created: nat, prompt: seq<Token>, only: Token): Generation {
    Started(created, prompt, 1, only).(phase := Finished, reason := Length)
  }

  lemma StartedOk(created: nat, prompt: seq<Token>, maxNew: nat, predict: seq<Slot> -> Token, eos: set<Token>)
    requires prompt != [] && maxNew >= 2
    ensures GenOk(Started(created, prompt, maxNew, predict(KvOf(prompt))), predict, eos)
  {
    hide KvOf, Chain, ModelOf;
    FirstChoice(predict, prompt);
  }

  lemma StartedTokens(created: nat, prompt: seq<Token>, maxNew: nat, next: Token)
    ensures var g := Started(created, prompt, maxNew, next);
            g.Tokens()[..|prompt|] == prompt && CommittedLength(g) == |prompt|
  {
  }

  lemma DoneOk(created: nat, prompt: seq<Token>, predict: seq<Slot> -> Token, eos: set<Token>)
    requires prompt != []
    ensures GenOk(Done(created, prompt, predict(KvOf(prompt))), predict, eos)
  {
    hide KvOf, Chain, ModelOf;
    FirstChoice(predict, prompt);
  }

  lemma FirstChoice(predict: seq<Slot> -> Token, prompt: seq<Token>)
    ensures Chain(ModelOf(predict), prompt, [predict(KvOf(prompt))])
  {
    hide KvOf;
    assert prompt + [] == prompt && [predict(KvOf(prompt))][..0] == [];
  }

  // ---- a prompt that ends inside the only page --------------------------------------------

  // The request was alone from the start: admitted into an empty engine, prefilled in one chunk,
  // its prompt published as an exact entry over its own page.
  function OnePage(predict: seq<Slot> -> Token, prompt: seq<Token>, size: nat, maxNew: nat): State
    requires |prompt| <= size
  {
    var next := predict(KvOf(prompt));
    State(
      Store(size, map[Exact(0) := [0], Request("A") := [0]], map["A" := Table([0], |prompt|)], map[],
            map[prompt := ExactEntry(0, [0], next, 1)], [KvOf(prompt) + seq(size - |prompt|, _ => Blank)]),
      map["A" := Started(0, prompt, maxNew, next)], {"A"}, [], {})
  }

  ghost function OnePageCache(predict: seq<Slot> -> Token, prompt: seq<Token>): View {
    View(map[], map[], map[prompt := ExactEntry(0, [0], predict(KvOf(prompt)), 1)], map[0 := 1], 0, 1, 1, map[], map[],
         map[Exact(0) := [0], Request("A") := [0]])
  }

  // It has unused slots in its page and fits the pool, and still it cannot write its next token.
  lemma OnePageStarves(predict: seq<Slot> -> Token, eos: set<Token>, prompt: seq<Token>, size: nat, maxNew: nat)
    requires 0 < |prompt| < size && 2 <= maxNew && |prompt| + maxNew <= size
    ensures var st := OnePage(predict, prompt, size, maxNew);
            && Inv(st, predict, eos) && st.active == {"A"} && st.waiting == [] && First(st.gens, "A")
            && |st.store.pool| == 1 && st.store.size == size && Fits(st.gens["A"], size)
            && Shows(st.store, OnePageCache(predict, prompt))
            && !WouldServe(st, Plan("A", 1))
  {
    hide KvOf, GenOk, Consistent, RowOk, Servable, Shows;
    var st := OnePage(predict, prompt, size, maxNew);
    StartedOk(0, prompt, maxNew, predict, eos);
    StartedTokens(0, prompt, maxNew, predict(KvOf(prompt)));
    OnePageConsistent(predict, prompt, size, maxNew);
    OnePageShown(predict, prompt, size, maxNew);
    assert Placed(st, "A");
    OnePageOutOfReach(st.store);
    OwnEntryShares(st, predict, eos, "A", 0, |prompt| + 1);
  }

  lemma OnePageConsistent(predict: seq<Slot> -> Token, prompt: seq<Token>, size: nat, maxNew: nat)
    requires 0 < |prompt| < size
    ensures var st := OnePage(predict, prompt, size, maxNew);
            && Consistent(st.store, predict) && RowOk(st.store, "A", st.gens["A"])
  {
    hide KvOf;
    var st := OnePage(predict, prompt, size, maxNew);
    assert st.gens["A"].Tokens()[..|prompt|] == prompt;
    assert Exact(0) in CacheHolders(st.store.owned, 0);
    MulLess(0, BlocksFor(|prompt|, size), size);
    MulLess(BlocksFor(|prompt|, size), 2, size);
  }

  lemma OnePageShown(predict: seq<Slot> -> Token, prompt: seq<Token>, size: nat, maxNew: nat)
    requires 0 < |prompt| < size
    ensures Shows(OnePage(predict, prompt, size, maxNew).store, OnePageCache(predict, prompt))
  {
    hide KvOf;
    var v := OnePageCache(predict, prompt);
    assert Referenced(v) by {
      assert CacheHolders(v.owned, 0) == {Exact(0)};
      forall b: nat | b != 0 ensures CacheHolders(v.owned, b) == {} { }
    }
    assert EntryIds(v.exact) == {0} by { assert v.exact[prompt].entry == 0; }
  }

  lemma OnePageOutOfReach(s: Store)
    requires Request("A") in s.owned && s.owned[Request("A")] == [0] && |s.pool| == 1
    ensures Obtainable(Among(s, {"A"} + {})) <= 0
  {
    var v := Among(s, {"A"} + {});
    PinnedMeans(v.owned, 0);
    assert 0 in v.owned[Request("A")];
    SubsetSize({0}, OutOfReach(v));
  }

  // ---- a page behind another one ----------------------------------------------------------

  // "A" and "B" were admitted together and computed the same first block on pages of their own.
  // "A" published its page 2 and is done. "B" published its page 0 behind it and goes on on pages
  // 1 and 0.
  function TwoRequests(predict: seq<Slot> -> Token, head: seq<Token>, tail: seq<Token>, maxNew: nat): State
    requires |head| == |tail| > 0
  {
    var size, both := |head|, head + tail;
    var first, next := predict(KvOf(head)), predict(KvOf(both));
    State(
      Store(size,
            map[Node(0) := [2], Node(1) := [0], Exact(0) := [2], Exact(1) := [1, 0], Request("B") := [1, 0]],
            map["B" := Table([1, 0], |both|)], map[head := 2, both := 0],
            map[head := ExactEntry(0, [2], first, 2), both := ExactEntry(1, [1, 0], next, 5)],
            [KvOf(both)[size..], KvOf(both)[..size], KvOf(head)]),
      map["A" := Done(0, head, first), "B" := Started(1, both, maxNew, next)], {"B"}, [], {})
  }

  ghost function TwoRequestsCache(predict: seq<Slot> -> Token, head: seq<Token>, tail: seq<Token>): View
    requires |head| == |tail| > 0
  {
    var st, both := TwoRequests(predict, head, tail, 2), head + tail;
    View(map[0 := PrefixNode(None, head, 2, {1}, 3), 1 := PrefixNode(Some(0), tail, 0, {}, 4)],
         map[Edge(None, head) := 0, Edge(Some(0), tail) := 1],
         st.store.exact, map[0 := 2, 1 := 1, 2 := 2], 2, 2, 5,
         map[0 := head, 1 := both], map[head := 0, both := 1], st.store.owned)
  }

  // Dropping the exact entry of "A" leaves page 2 on its node, and that node stays as long as "B"
  // holds the page behind it. "B" needs a third page, which its admission counted on.
  lemma TwoRequestsStarve(predict: seq<Slot> -> Token, eos: set<Token>, head: seq<Token>, tail: seq<Token>, maxNew: nat)
    requires |head| == |tail| && 2 <= maxNew <= |head|
    ensures var st := TwoRequests(predict, head, tail, maxNew);
            && Inv(st, predict, eos) && st.active == {"B"} && st.waiting == [] && First(st.gens, "B")
            && |st.store.pool| == 3 && st.store.size == |head| && Fits(st.gens["B"], 3 * |head|)
            && Shows(st.store, TwoRequestsCache(predict, head, tail))
            && Holders(st.store.owned, 2) == CacheHolders(st.store.owned, 2)
            && !WouldServe(st, Plan("B", 1))
  {
    hide KvOf, Consistent, Shows, GenOk, RowOk, Servable, Holders, CacheHolders;
    var st, both := TwoRequests(predict, head, tail, maxNew), head + tail;
    TwoRequestsConsistent(st.store, head, tail, predict);
    TwoRequestsShown(st.store, TwoRequestsCache(predict, head, tail), head, tail);
    TwoRequestsHeld(st.store.owned);
    TwoPagesOutOfReach(st.store, head, both);
    DoneOk(0, head, predict, eos);
    StartedOk(1, both, maxNew, predict, eos);
    StartedTokens(1, both, maxNew, predict(KvOf(both)));
    OneRuns(st, predict, eos, head, both);
    ThirdPage(|head|);
    NothingInReach(st, "B", |both| + 1);
  }

  lemma OneRuns(st: State, predict: seq<Slot> -> Token, eos: set<Token>, head: seq<Token>, both: seq<Token>)
    requires Consistent(st.store, predict) && st.store.tables == map["B" := Table([1, 0], |both|)]
    requires st.active == {"B"} && st.waiting == [] && st.reserved == {} && st.gens.Keys == {"A", "B"}
    requires st.gens["A"].phase.Finished? && st.gens["B"].phase.Decoding?
    requires GenOk(st.gens["A"], predict, eos) && GenOk(st.gens["B"], predict, eos)
    requires st.gens["B"].prompt == both && |st.gens["B"].outputs| == 1
    requires Stored(st.store.pool, st.store.size, [1, 0], KvOf(both))
    ensures Inv(st, predict, eos) && First(st.gens, "B")
  {
    hide Consistent, GenOk, Stored, KvOf;
    assert st.gens["B"].Tokens()[..|both|] == both;
    assert Placed(st, "A") && Placed(st, "B");
  }

  lemma ThirdPage(size: nat)
    requires size > 0
    ensures (2 * size) % size == 0 && BlocksFor(2 * size + 1, size) > 2
  {
    DivUnique(2 * size, size, 2);
    MulLess(2, BlocksFor(2 * size + 1, size), size);
  }

  // No page left within reach: what is lacking stays lacking.
  lemma NothingInReach(st: State, id: string, target: nat)
    requires id in st.store.tables && st.store.size > 0
    requires BlocksFor(target, st.store.size) > |st.store.tables[id].blocks|
    requires st.store.tables[id].length % st.store.size == 0 && Obtainable(Among(st.store, {id} + st.reserved)) <= 0
    ensures !Servable(st, id, target)
  {
  }

  lemma TwoPagesOutOfReach(s: Store, head: seq<Token>, both: seq<Token>)
    requires Request("B") in s.owned && s.owned[Request("B")] == [1, 0] && |s.pool| == 3
    requires head in s.catalog && both in s.catalog && head <= both && s.catalog[head] == 2 && s.catalog[both] == 0
    ensures Obtainable(Among(s, {"B"} + {})) <= 0
  {
    var v := Among(s, {"B"} + {});
    forall b: nat | b < 2 ensures Pinned(v.owned, b) {
      PinnedMeans(v.owned, b);
      assert Request("B") in v.owned && b in v.owned[Request("B")];
    }
    hide Pinned;
    assert Shielded(v, head);
    SubsetSize({0, 1, 2}, OutOfReach(v));
  }

  // ---- the second state in order ----------------------------------------------------------

  const TWO_OWNERS: Ledger :=
    map[Node(0) := [2], Node(1) := [0], Exact(0) := [2], Exact(1) := [1, 0], Request("B") := [1, 0]]

  lemma TwoRequestsHeld(owned: Ledger)
    requires owned == TWO_OWNERS
    ensures CacheHolders(owned, 0) == {Node(1), Exact(1)} && CacheHolders(owned, 1) == {Exact(1)}
    ensures Holders(owned, 2) == CacheHolders(owned, 2) == {Node(0), Exact(0)}
    ensures forall b: nat | b > 2 :: CacheHolders(owned, b) == {}
  {
    forall o: Owner, b: nat
      ensures o in CacheHolders(owned, b) <==>
        || (b == 0 && (o == Node(1) || o == Exact(1)))
        || (b == 1 && o == Exact(1))
        || (b == 2 && (o == Node(0) || o == Exact(0)))
    {
    }
  }

  lemma TwoRequestsConsistent(s: Store, head: seq<Token>, tail: seq<Token>, predict: seq<Slot> -> Token)
    requires |head| == |tail| == s.size > 0 && s.owned == TWO_OWNERS
    requires s.tables == map["B" := Table([1, 0], |head + tail|)]
    requires s.catalog == map[head := 2, head + tail := 0]
    requires s.exact == map[head := ExactEntry(0, [2], predict(KvOf(head)), 2),
                            head + tail := ExactEntry(1, [1, 0], predict(KvOf(head + tail)), 5)]
    requires s.pool == [KvOf(head + tail)[s.size..], KvOf(head + tail)[..s.size], KvOf(head)]
    ensures Consistent(s, predict)
    ensures Stored(s.pool, s.size, [1, 0], KvOf(head + tail))
  {
    hide KvOf, Stored, CacheHolders, Holders, Shaped, CacheAlive, CatalogHolds, EntryHolds;
    var both := head + tail;
    assert head in s.exact && both in s.exact && s.exact.Keys == {head, both};
    assert s.exact[head].blocks == [2] && s.exact[both].blocks == [1, 0];
    TwoShaped(s, |both|);
    TwoAlive(s, head, both);
    TwoPublished(s, head, both);
    OnOnePage(s.pool, s.size, 2, KvOf(head));
    OnTwoPages(s.pool, s.size, 1, 0, KvOf(both));
    ExactBlocks(1, s.size);
    ExactBlocks(2, s.size);
    EntryInOrder(s, head, predict);
    EntryInOrder(s, both, predict);
  }

  lemma TwoShaped(s: Store, length: nat)
    requires s.owned == TWO_OWNERS && s.size > 0 && s.tables == map["B" := Table([1, 0], length)]
    requires length == 2 * s.size
    requires |s.pool| == 3 && |s.pool[0]| == |s.pool[1]| == |s.pool[2]| == s.size
    ensures Shaped(s) && forall id | id in s.tables :: Exclusive(s, id)
  {
  }

  lemma TwoAlive(s: Store, head: seq<Token>, both: seq<Token>)
    requires s.owned == TWO_OWNERS && |s.pool| == 3
    requires s.catalog.Keys == {head, both} && s.catalog[head] == 2 && s.catalog[both] == 0
    requires s.exact.Keys == {head, both} && s.exact[head].blocks == [2] && s.exact[both].blocks == [1, 0]
    ensures CacheAlive(s)
  {
    hide CacheHolders;
    TwoRequestsHeld(s.owned);
  }

  lemma TwoPublished(s: Store, head: seq<Token>, both: seq<Token>)
    requires s.catalog.Keys == {head, both} && s.catalog[head] == 2 && s.catalog[both] == 0
    requires |head| == s.size && |both| == 2 * s.size
    requires s.pool == [KvOf(both)[s.size..], KvOf(both)[..s.size], KvOf(head)]
    ensures CatalogHolds(s)
  {
    hide KvOf;
    assert KvOf(head)[|head| - s.size..] == KvOf(head);
  }

  lemma EntryInOrder(s: Store, key: seq<Token>, predict: seq<Slot> -> Token)
    requires key in s.exact && key != [] && s.size > 0 && Distinct(s.exact[key].blocks)
    requires |s.exact[key].blocks| == BlocksFor(|key|, s.size) && Stored(s.pool, s.size, s.exact[key].blocks, KvOf(key))
    requires s.exact[key].nextToken == predict(KvOf(key))
    ensures EntryHolds(s, key, predict)
  {
  }

  lemma OnOnePage(pool: Pool, size: nat, b: nat, values: seq<Slot>)
    requires b < |pool| && |pool[b]| == |values| == size && pool[b] == values
    ensures Stored(pool, size, [b], values)
  {
  }

  lemma OnTwoPages(pool: Pool, size: nat, a: nat, b: nat, values: seq<Slot>)
    requires a < |pool| && b < |pool| && |values| == 2 * size && pool[a] == values[..size] && pool[b] == values[size..]
    ensures Stored(pool, size, [a, b], values)
  {
  }

  lemma TwoRequestsShown(s: Store, v: View, head: seq<Token>, tail: seq<Token>)
    requires |head| == |tail| == s.size > 0 && s.owned == v.owned == TWO_OWNERS && s.exact == v.exact
    requires s.catalog == map[head := 2, head + tail := 0]
    requires v.nodes == map[0 := PrefixNode(None, head, 2, {1}, 3), 1 := PrefixNode(Some(0), tail, 0, {}, 4)]
    requires v.edges == map[Edge(None, head) := 0, Edge(Some(0), tail) := 1]
    requires v.paths == map[0 := head, 1 := head + tail] && v.index == map[head := 0, head + tail := 1]
    requires v.exact.Keys == {head, head + tail} && v.exact[head].entry == 0 && v.exact[head + tail].entry == 1
    requires v.exact[head].blocks == [2] && v.exact[head + tail].blocks == [1, 0]
    requires v.exact[head].lastAccess == 2 && v.exact[head + tail].lastAccess == 5 && v.clock == 5
    requires v.nextNode == 2 && v.nextEntry == 2 && v.references == map[0 := 2, 1 := 1, 2 := 2]
    ensures Shows(s, v)
  {
    hide Referenced, Owns, Stamped, Forest, Catalog;
    assert Catalog(v) == s.catalog by { TwoCatalog(v, head, head + tail); }
    assert Referenced(v) by { TwoRequestsCounts(v); }
    assert Forest(v, s.size) by { TwoNodes(v, head, tail); }
    assert Owns(v) by { TwoEntries(v, head, head + tail); }
    assert Stamped(v) by { TwoStamps(v, head, head + tail); }
  }

  lemma TwoCatalog(v: View, head: seq<Token>, both: seq<Token>)
    requires v.index == map[head := 0, both := 1] && head != both
    requires v.nodes.Keys == {0, 1} && v.nodes[0].block == 2 && v.nodes[1].block == 0
    ensures Catalog(v) == map[head := 2, both := 0]
  {
  }

  lemma TwoRequestsCounts(v: View)
    requires v.owned == TWO_OWNERS && v.references == map[0 := 2, 1 := 1, 2 := 2]
    ensures Referenced(v)
  {
    TwoRequestsHeld(v.owned);
    hide CacheHolders, Holders;
    assert |{Node(1), Exact(1)}| == 2 && |{Node(0), Exact(0)}| == 2;
  }

  lemma TwoNodes(v: View, head: seq<Token>, tail: seq<Token>)
    requires |head| == |tail| > 0
    requires v.nodes == map[0 := PrefixNode(None, head, 2, {1}, 3), 1 := PrefixNode(Some(0), tail, 0, {}, 4)]
    requires v.edges == map[Edge(None, head) := 0, Edge(Some(0), tail) := 1]
    requires v.paths == map[0 := head, 1 := head + tail] && v.index == map[head := 0, head + tail := 1]
    requires v.nextNode == 2
    ensures Forest(v, |head|)
  {
    assert NodeOk(v, |head|, 0);
    assert NodeOk(v, |head|, 1);
  }

  lemma TwoEntries(v: View, head: seq<Token>, both: seq<Token>)
    requires v.owned == TWO_OWNERS && v.nodes.Keys == {0, 1} && v.nodes[0].block == 2 && v.nodes[1].block == 0
    requires v.exact.Keys == {head, both} && v.exact[head].entry == 0 && v.exact[both].entry == 1 && v.nextEntry == 2
    requires v.exact[head].blocks == [2] && v.exact[both].blocks == [1, 0]
    ensures Owns(v)
  {
    assert head in v.exact && both in v.exact;
    assert EntryIds(v.exact) == {0, 1};
  }

  lemma TwoStamps(v: View, head: seq<Token>, both: seq<Token>)
    requires v.nodes.Keys == {0, 1} && v.nodes[0].lastAccess == 3 && v.nodes[1].lastAccess == 4 && v.clock == 5
    requires v.exact.Keys == {head, both} && v.exact[head].lastAccess == 2 && v.exact[both].lastAccess == 5
    ensures Stamped(v)
  {
    forall a | Has(v, a) ensures a == NodeItem(0) || a == NodeItem(1) || a == ExactItem(head) || a == ExactItem(both) {
    }
  }
}
