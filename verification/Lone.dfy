// The whole life of the only request an engine of one page ever gets, from its set-up to the
// failure for lack of memory (engine/batching/continuous_batching.py, engine/scheduler/scheduler.py,
// engine/cache/prefix.py).
module LonePrompts {
  import opened Common
  import opened Ownership
  import opened Paging
  import opened PrefixForest
  import opened PrefixCaching
  import opened PagedStore
  import opened GreedyDecoding
  import opened Lifecycle
  import opened Arrival
  import opened Yielding
  import opened Prospects
  import opened CapacityFacts
  import opened Batching
  import opened Completion
  import opened PrefillPlanning
  import opened Admission
  import opened Iterations
  import opened Alone
  import opened Draining
  import opened StarvedStates
  import opened ServingEngine

  // A greedy request without ending tokens.
  ghost predicate Plain(g: Generation, prompt: seq<Token>, maxNew: nat) {
    && g.prompt == prompt && g.maxNew == maxNew && g.greedy && g.stops == {} && g.ignoreEos
  }

  // Before its first token.
  ghost predicate Unserved(g: Generation, prompt: seq<Token>, maxNew: nat) {
    Plain(g, prompt, maxNew) && (g.phase.Waiting? || g.phase.Prefilling?) && g.outputs == [] && !g.resuming
  }

  // Its first token is pending, and its prompt is cached.
  ghost predicate Pending(st: State, prompt: seq<Token>) {
    && "A" in st.gens && st.gens["A"].phase.Decoding? && st.gens["A"].prompt == prompt && |st.gens["A"].outputs| == 1
    && prompt in st.store.exact
  }

  ghost predicate Lone(st: State, prompt: seq<Token>, maxNew: nat) {
    && st.gens.Keys == {"A"}
    && (Unserved(st.gens["A"], prompt, maxNew) || Pending(st, prompt) || LacksMemory(st, "A"))
  }

  // ---- on the way to its first token ------------------------------------------------------

  lemma FirstOf<T>(s: seq<T>)
    ensures |s| > 0 ==> s[0] in s
  {
  }

  lemma FirstTwo<T>(s: seq<T>)
    requires Distinct(s)
    ensures |s| > 0 ==> s[0] in s
    ensures |s| > 1 ==> s[1] in s && s[0] != s[1]
  {
  }

  // The states on the way, for a request that is not decoding yet.
  lemma Joins(a: State, joined: State, k: nat, admitted: seq<string>, capacity: nat, prompt: seq<Token>, maxNew: nat,
              predict: seq<Slot> -> Token, eos: set<Token>)
    requires Inv(a, predict, eos) && a.gens.Keys == {"A"} && Unserved(a.gens["A"], prompt, maxNew)
    requires |prompt| + maxNew <= capacity && Admitting(a, joined, k, admitted, capacity, predict)
    ensures joined.gens.Keys == {"A"} && Unserved(joined.gens["A"], prompt, maxNew)
    ensures || admitted == []
            || (admitted == ["A"] && joined.gens["A"].phase.Prefilling? && HitOk(joined.gens["A"], predict))
  {
    hide RowOk, GenOk, Consistent, RowKept, Evolves, HitOk, Fitting;
    assert forall x | x in a.waiting :: x == "A";
    FittingDistinct(a.gens, a.waiting[..k], capacity);
    FirstTwo(admitted);
    assert forall x | x in admitted :: x == "A";
    assert admitted == [] || admitted == ["A"];
    assert "A" in a.waiting[..k] ==> "A" in admitted;
  }

  // A whole-prompt hit would have brought its first token along.
  lemma Starts(joined: State, started: State, admitted: seq<string>, prompt: seq<Token>, maxNew: nat,
               predict: seq<Slot> -> Token, eos: set<Token>)
    requires joined.gens.Keys == {"A"} && Unserved(joined.gens["A"], prompt, maxNew) && maxNew >= 2
    requires || admitted == []
             || (admitted == ["A"] && joined.gens["A"].phase.Prefilling? && HitOk(joined.gens["A"], predict))
    requires HitsDone(joined, started, admitted, eos) && Filed(joined, started)
    ensures started.gens.Keys == {"A"}
    ensures Unserved(started.gens["A"], prompt, maxNew) || Pending(started, prompt)
  {
    hide Continues, Undisturbed, KvOf;
    if admitted == ["A"] && FullyPrefilled(joined.gens["A"]) {
      FirstTokenStays(joined.gens["A"], prompt, maxNew, joined.gens["A"].cachedNext.value, eos);
      assert "A" in admitted && FirstDecode(joined, started, "A");
    }
  }

  lemma FirstTokenStays(g: Generation, prompt: seq<Token>, maxNew: nat, token: Token, eos: set<Token>)
    requires Unserved(g, prompt, maxNew) && maxNew >= 2
    ensures var h := Completed(g, Some(token), eos);
            h.phase.Decoding? && h.prompt == prompt && |h.outputs| == 1
  {
  }

  // A chunk, a first token, or neither.
  lemma Prefills(started: State, b: State, plans: seq<Plan>, prompt: seq<Token>, maxNew: nat, epoch: nat,
                 eos: set<Token>)
    requires started.gens.Keys == {"A"} && Unserved(started.gens["A"], prompt, maxNew) && maxNew >= 2
    requires BatchProgress(started, b, Tasks(plans), eos, epoch) && Filed(started, b)
    ensures b.gens.Keys == {"A"}
    ensures Unserved(b.gens["A"], prompt, maxNew) || Pending(b, prompt) || LacksMemory(b, "A")
  {
    hide Continues, Oldest;
    if plan :| plan in Tasks(plans) && plan.id == "A" && CarriedOut(started, b, plan, eos) {
      var token :| b.gens["A"] == FilledBy(started.gens["A"], plan.count, token, eos);
      var g := started.gens["A"].(prefilled := started.gens["A"].prefilled + plan.count);
      FirstTokenStays(g, prompt, maxNew, token, eos);
      if FullyPrefilled(g) { assert FirstDecode(started, b, "A"); }
    }
  }

  lemma NothingLeft(started: State, visited: seq<string>, plans: seq<Plan>, chunk: nat, budget: nat)
    requires started.gens.Keys == {"A"} && started.gens["A"].phase.Decoding?
    requires RoundRobin(started.gens, visited, plans, chunk, budget)
    ensures plans == []
  {
    FirstOf(Unfilled(started.gens, visited));
  }

  // One iteration before its first token.
  lemma OnTheWay(a: State, t: Trail, b: State, capacity: nat, chunk: nat, budget: nat, prompt: seq<Token>, maxNew: nat,
                 predict: seq<Slot> -> Token, eos: set<Token>)
    requires Inv(a, predict, eos) && a.gens.Keys == {"A"} && Unserved(a.gens["A"], prompt, maxNew)
    requires maxNew >= 2 && |prompt| + maxNew <= capacity && t.decoded == a && !t.fused
    requires Iterated(a, t, b, capacity, chunk, budget, predict, eos)
    requires Filed(t.joined, t.started) && Filed(t.started, b) && (t.plans == [] ==> b == t.started)
    ensures Lone(b, prompt, maxNew)
  {
    hide Inv, Admitting, HitsDone, RoundRobin, BatchProgress, OldestDecoded, OldestCarriedOut, OldestDecided, Filed,
         Unserved, Pending, LacksMemory, Evolves, Fared, Thinned, HitOk;
    Joins(a, t.joined, t.k, t.admitted, capacity, prompt, maxNew, predict, eos);
    Starts(t.joined, t.started, t.admitted, prompt, maxNew, predict, eos);
    if Unserved(t.started.gens["A"], prompt, maxNew) {
      assert t.rows + t.plans == t.plans;
      Prefills(t.started, b, t.plans, prompt, maxNew, t.later, eos);
    } else {
      PendingDecodes(t.started, prompt);
      NothingLeft(t.started, t.visited, t.plans, chunk, budget);
    }
  }

  lemma PendingDecodes(st: State, prompt: seq<Token>)
    requires Pending(st, prompt)
    ensures "A" in st.gens && st.gens["A"].phase.Decoding?
  {
  }

  // ---- and no further ---------------------------------------------------------------------

  lemma SinglePage(blocks: seq<nat>)
    requires blocks != [] && Distinct(blocks) && forall b | b in blocks :: b < 1
    ensures blocks == [0]
  {
    FirstTwo(blocks);
  }

  lemma EntryIsThePage(s: Store, v: View, prompt: seq<Token>, predict: seq<Slot> -> Token)
    requires Shows(s, v) && |s.pool| == 1 && 0 < |prompt| < s.size && prompt in s.exact
    requires EntryHolds(s, prompt, predict)
    ensures Exact(s.exact[prompt].entry) in s.owned && s.owned[Exact(s.exact[prompt].entry)] == [0]
  {
    hide KvOf, Forest, Stamped, Referenced, Catalog;
    var blocks := s.exact[prompt].blocks;
    MulLess(0, BlocksFor(|prompt|, s.size), s.size);
    assert forall b | b in blocks :: b < 1;
    SinglePage(blocks);
  }

  // The only page belongs to the request and to its own prompt's entry.
  lemma OnlyPageShared(st: State, v: View, prompt: seq<Token>, turn: Plan, predict: seq<Slot> -> Token, eos: set<Token>)
    requires Inv(st, predict, eos) && Shows(st.store, v) && st.reserved == {} && |st.store.pool| == 1
    requires 0 < |prompt| < st.store.size && Pending(st, prompt) && turn.id == "A" && turn.count > 0
    ensures !WouldServe(st, turn)
  {
    hide Inv, KvOf, Servable, Shows, Exclusive, CatalogHolds, CacheAlive, EntryHolds;
    PendingRow(st, prompt, predict, eos);
    EntryIsThePage(st.store, v, prompt, predict);
    OnePageOutOfReach(st.store);
    OwnEntryShares(st, predict, eos, "A", st.store.exact[prompt].entry, |prompt| + turn.count);
  }

  lemma PendingRow(st: State, prompt: seq<Token>, predict: seq<Slot> -> Token, eos: set<Token>)
    requires Inv(st, predict, eos) && |st.store.pool| == 1 && 0 < |prompt| < st.store.size && Pending(st, prompt)
    ensures "A" in st.active && "A" in st.store.tables && st.store.tables["A"] == Table([0], |prompt|)
    ensures CommittedLength(st.gens["A"]) == |prompt| && EntryHolds(st.store, prompt, predict)
    ensures Request("A") in st.store.owned && st.store.owned[Request("A")] == [0]
  {
    hide KvOf, GenOk, Stored, CatalogHolds, CacheAlive, Exclusive, EntryHolds;
    assert "A" in st.active by { assert Placed(st, "A"); }
    ActiveRow(st, "A", predict, eos);
    TableFacts(st.store, predict, "A");
    TablePagesInPool(st.store, "A");
    SinglePage(st.store.tables["A"].blocks);
  }

  // One iteration after its first token.
  lemma NoFurther(a: State, t: Trail, b: State, v: View, prompt: seq<Token>, capacity: nat, chunk: nat, budget: nat,
                  predict: seq<Slot> -> Token, eos: set<Token>)
    requires Inv(a, predict, eos) && Shows(a.store, v) && a.reserved == {} && |a.store.pool| == 1
    requires a.gens.Keys == {"A"}
    requires 0 < |prompt| < a.store.size && Pending(a, prompt) && TokenOrFailure(a, b, TurnOf(t.drafts, "A"))
    requires Iterated(a, t, b, capacity, chunk, budget, predict, eos)
    ensures b.gens.Keys == {"A"} && LacksMemory(b, "A")
  {
    hide Inv, Shows, Pending, WouldServe, Decoded, Admitting, HitsDone, RoundRobin, BatchProgress, OldestDecoded,
         OldestCarriedOut, OldestDecided, Evolves;
    StartedFrame(a, t, capacity, predict, eos);
    ProgressFacts(t.started, b, Tasks(t.rows + t.plans), eos, t.later);
    OnlyPageShared(a, v, prompt, TurnOf(t.drafts, "A"), predict, eos);
  }

  // The only request is first in line.
  lemma OnlyIsFirst(gens: map<string, Generation>)
    requires gens.Keys == {"A"} && gens["A"].Live()
    ensures First(gens, "A")
  {
  }

  lemma LoneEnds(st: State, prompt: seq<Token>, maxNew: nat)
    requires Lone(st, prompt, maxNew) && Alive(st) == {}
    ensures st.gens.Keys == {"A"} && st.gens["A"].phase.Failed? && st.gens["A"].reason.KvPoolExhausted?
  {
    assert "A" in st.gens && (st.gens["A"].Live() ==> "A" in Alive(st));
  }

  // What an iteration tells about its way.
  ghost predicate Passed(a: State, t: Trail, b: State) {
    && (DecodingIn(a) == {} ==> t.decoded == a && !t.fused)
    && Filed(t.joined, t.started) && Filed(t.started, b) && (t.plans == [] && !t.fused ==> b == t.started)
    && forall id | id in a.gens && First(a.gens, id) && a.gens[id].phase.Decoding? ::
         TokenOrFailure(a, b, TurnOf(t.drafts, id))
  }

  lemma HasPassed(a: State, t: Trail, b: State, eos: set<Token>)
    requires DecodingIn(a) == {} ==> t.decoded == a && !t.fused
    requires Filed(t.joined, t.started) && Filed(t.started, b) && (t.plans == [] && !t.fused ==> b == t.started)
    requires FirstServed(a, t, b, eos)
    ensures Passed(a, t, b)
  {
    hide Filed, First, TokenOrFailure, WouldServe, CarriedOut, LacksMemory;
  }

  lemma LoneGoesOn(a: State, t: Trail, b: State, v: View, capacity: nat, chunk: nat, budget: nat, prompt: seq<Token>,
                   maxNew: nat, predict: seq<Slot> -> Token, eos: set<Token>)
    requires Inv(a, predict, eos) && Shows(a.store, v) && |a.store.pool| == 1 && a.reserved == {}
    requires Alive(a) != {} && Lone(a, prompt, maxNew)
    requires 0 < |prompt| < a.store.size && maxNew >= 2 && |prompt| + maxNew <= capacity
    requires Iterated(a, t, b, capacity, chunk, budget, predict, eos) && Passed(a, t, b)
    ensures Lone(b, prompt, maxNew)
  {
    hide Inv, Shows, Iterated, First, Filed, TokenOrFailure, WouldServe;
    if Unserved(a.gens["A"], prompt, maxNew) {
      assert DecodingIn(a) == {};
      OnTheWay(a, t, b, capacity, chunk, budget, prompt, maxNew, predict, eos);
    } else {
      OnlyIsFirst(a.gens);
      NoFurther(a, t, b, v, prompt, capacity, chunk, budget, predict, eos);
    }
  }

  lemma LoneArrives(st: State, prompt: seq<Token>, maxNew: nat)
    requires st.gens.Keys == {"A"} && Plain(st.gens["A"], prompt, maxNew) && st.gens["A"].phase.Waiting?
    requires st.gens["A"].outputs == [] && !st.gens["A"].resuming
    ensures Lone(st, prompt, maxNew)
  {
  }

  // The iterations from the arrival to the failure.
  method Exhaust(engine: Engine, ghost prompt: seq<Token>, ghost maxNew: nat)
    requires engine.Steady() && Lone(engine.Snapshot(), prompt, maxNew) && engine.Roomy() && engine.reserved == {}
    requires engine.manager.allocator.numBlocks == 1 && engine.reservedBlocks == 0
    requires 0 < |prompt| < engine.manager.allocator.blockSize && 2 <= maxNew
    requires |prompt| + maxNew <= engine.manager.allocator.blockSize
    modifies engine, engine.manager, engine.manager.allocator, engine.cache, engine.pool.cells
    ensures engine.Steady() && engine.gens.Keys == {"A"} && engine.active == {} && engine.waiting == []
    ensures engine.gens["A"].phase.Failed? && engine.gens["A"].reason.KvPoolExhausted?
  {
    hide Inv, Coherent, Consistent, Counts, FreeListOf, Mirrors, WellFormed, Catalog, Evolves, Undisturbed, Timely,
         Brisk, Alive, Fresh, Units, Lone, Iterated, First, Filed, TokenOrFailure, WouldServe, Shows,
         FirstServed, Passed, HeadHeld, Endings, Turned, Admitting;
    while engine.waiting != [] || engine.active != {}
      invariant engine.Steady() && Lone(engine.Snapshot(), prompt, maxNew)
      decreases Alive(engine.Snapshot()), Fresh(engine.Snapshot(), engine.epoch), engine.active,
                Units(engine.Snapshot())
    {
      ghost var a, v := engine.Snapshot(), engine.cache.Snapshot();
      SomebodyAlive(a, engine.predict, engine.eos);
      engine.ForestShown();
      var ok;
      ghost var trail;
      var offers: map<string, seq<Token>> := *;
      ok, trail := engine.Step(offers);
      HasPassed(a, trail, engine.Snapshot(), engine.eos);
      LoneGoesOn(a, trail, engine.Snapshot(), v, engine.EffectiveCapacity(), engine.limits.chunk, engine.limits.budget,
                 prompt, maxNew, engine.predict, engine.eos);
    }
    NobodyAlive(engine.Snapshot(), engine.predict, engine.eos);
    LoneEnds(engine.Snapshot(), prompt, maxNew);
  }

  // Whatever the limits, the only request, which fits the pool with room to spare, ends by failing
  // for lack of memory: the cache may keep a page, and once the prompt is prefilled it keeps the
  // only one.
  method ServeLone(prompt: seq<Token>, maxNew: nat, size: nat, cacheBlocks: nat, limits: Limits, proposer: bool,
                   eos: set<Token>, predict: seq<Slot> -> Token) returns (engine: Engine?)
    requires 0 < |prompt| < size && 2 <= maxNew && |prompt| + maxNew <= size && cacheBlocks > 0
    requires limits.maxModelLen == 0 || |prompt| + maxNew <= limits.maxModelLen
    ensures engine != null <==>
      limits.maxActive > 0 && limits.budget > 0 && 0 < limits.depth < limits.chunk && limits.maxWaiting != Some(0)
    ensures engine != null ==>
      && fresh(engine) && engine.Steady() && engine.manager.allocator.numBlocks == 1
      && engine.gens.Keys == {"A"} && engine.active == {} && engine.waiting == []
      && engine.gens["A"].phase.Failed? && engine.gens["A"].reason.KvPoolExhausted?
  {
    hide Inv, Coherent, Consistent, Counts, FreeListOf, Mirrors, WellFormed, Catalog, Undisturbed, Timely, Brisk, Lone;
    engine := NewEngine(1, size, cacheBlocks, 0, limits, proposer, eos, predict);
    NoBlocks(size);
    if engine == null {
      return;
    }
    var r := engine.Submit("A", prompt, maxNew, true, {}, true, 0);
    LoneArrives(engine.Snapshot(), prompt, maxNew);
    Exhaust(engine, prompt, maxNew);
  }
}
