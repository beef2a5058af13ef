// Requests, their lifecycle, and the invariant of the whole engine as a value
// (engine/runtime/request.py, engine/scheduler/scheduler.py,
// engine/batching/continuous_batching.py).
module Lifecycle {
  import opened Common
  import opened Ownership
  import opened Paging
  import opened PrefixForest
  import opened PrefixCaching
  import opened PagedStore
  import opened GreedyDecoding

  datatype Phase = Waiting | Prefilling | Decoding | Finished | Cancelled | Failed | Rejected

  datatype Reason =
    | NoReason | Stop | Eos | Length | KvPoolExhausted | InvalidPrefixEntry
    | CancelledByClient | QueueFull | KvCapacityExceeded

  datatype Generation = Generation(
    created: nat, prompt: seq<Token>, maxNew: nat, greedy: bool, stops: set<Token>, ignoreEos: bool,
    phase: Phase, outputs: seq<Token>, pending: Option<Token>, prefilled: nat, cachedNext: Option<Token>,
    resuming: bool, recomputing: bool, preemptedAtEpoch: nat, reason: Reason)
  {
    function Tokens(): seq<Token> { prompt + outputs }

    // The tokens whose K/V must exist before this request can decode.
    function PrefillIds(): seq<Token> {
      if resuming && outputs != [] then prompt + outputs[..|outputs| - 1] else prompt
    }

    function Ends(eos: set<Token>): set<Token> {
      if ignoreEos then stops else stops + eos
    }

    predicate Live() { phase.Waiting? || phase.Prefilling? || phase.Decoding? }

    // Why `token`, just appended, ends the request; stop tokens take precedence.
    function FinishReason(token: Token, eos: set<Token>): Option<Reason> {
      if token in stops then Some(Stop)
      else if !ignoreEos && token in eos then Some(Eos)
      else if |outputs| >= maxNew then Some(Length)
      else None
    }

    // Yield all K/V and go back to the queue; generated tokens are kept.
    function Preempted(epoch: nat): Generation {
      this.(phase := Waiting, prefilled := 0, cachedNext := None, resuming := outputs != [],
            recomputing := true, preemptedAtEpoch := epoch)
    }
  }

  datatype State = State(
    store: Store, gens: map<string, Generation>, active: set<string>, waiting: seq<string>, reserved: set<string>)

  // The model seen as a function of token contexts.
  function ModelOf(predict: seq<Slot> -> Token): Model {
    (context: seq<Token>) => predict(KvOf(context))
  }

  // A request that yields keeps what it was asked for and what it has put out, and starts over
  // with its K/V; it is marked with the epoch in which it yielded.
  ghost predicate PutBack(g: Generation, h: Generation, epoch: nat) {
    && h.created == g.created && h.prompt == g.prompt && h.maxNew == g.maxNew && h.greedy == g.greedy
    && h.stops == g.stops && h.ignoreEos == g.ignoreEos && h.outputs == g.outputs
    && h.phase.Waiting? && h.prefilled == 0 && h.cachedNext.None? && (h.resuming <==> h.outputs != [])
    && h.recomputing && h.preemptedAtEpoch == epoch
  }

  // What holds of a request whatever it is doing.
  ghost predicate GenOk(g: Generation, predict: seq<Slot> -> Token, eos: set<Token>) {
    && g.prompt != [] && g.maxNew > 0 && |g.outputs| <= g.maxNew
    && (g.greedy ==> Chain(ModelOf(predict), g.prompt, g.outputs))
    && (!g.phase.Finished? ==> Open(g.outputs, g.Ends(eos)) && |g.outputs| < g.maxNew)
    && (g.phase.Waiting? ==> g.prefilled == 0 && g.cachedNext.None? && (g.resuming <==> g.outputs != []))
    && (g.phase.Prefilling? ==> (g.resuming <==> g.outputs != []))
    && (g.phase.Decoding? ==>
          !g.resuming && !g.recomputing && g.outputs != [] && g.pending == Some(g.outputs[|g.outputs| - 1]))
    && (g.phase.Finished? ==> g.outputs != [] && Complete(g.outputs, g.Ends(eos), g.maxNew))
    && ReasonOk(g, eos)
  }

  // The reported reason is the right one: a stop token goes before an end of sequence, and both
  // go before the length limit, which was then reached exactly.
  ghost predicate ReasonOk(g: Generation, eos: set<Token>) {
    match g.phase
    case Finished =>
      && g.outputs != []
      && var last := g.outputs[|g.outputs| - 1];
      && (g.reason.Stop? <==> last in g.stops)
      && (g.reason.Eos? <==> last !in g.stops && !g.ignoreEos && last in eos)
      && (g.reason.Length? <==> last !in g.stops && (g.ignoreEos || last !in eos))
      && (g.reason.Length? ==> |g.outputs| == g.maxNew)
    case Cancelled => g.reason.CancelledByClient?
    case Failed => g.reason.KvPoolExhausted? || g.reason.InvalidPrefixEntry?
    case Rejected => g.reason.QueueFull? || g.reason.KvCapacityExceeded?
    case _ => g.reason.NoReason?
  }

  lemma RightReason(st: State, id: string, predict: seq<Slot> -> Token, eos: set<Token>)
    requires Inv(st, predict, eos) && id in st.gens
    ensures ReasonOk(st.gens[id], eos)
  {
    hide Consistent, ReasonOk, RowOk;
    assert GenOk(st.gens[id], predict, eos);
  }

  // An active request's table holds exactly the K/V of its own tokens.
  ghost predicate RowOk(s: Store, id: string, g: Generation) {
    && id in s.tables
    && var t := s.tables[id];
    && t.length <= |g.Tokens()|
    && Stored(s.pool, s.size, t.blocks, KvOf(g.Tokens()[..t.length]))
    && (g.phase.Prefilling? ==>
          && t.length == g.prefilled <= |g.PrefillIds()|
          && (!g.resuming && s.size > 0 ==> |t.blocks| <= BlocksFor(|g.prompt|, s.size)))
    && (g.phase.Decoding? ==> t.length == |g.prompt| + |g.outputs| - 1)
  }

  ghost predicate Placed(st: State, id: string)
    requires id in st.gens
  {
    var phase := st.gens[id].phase;
    && (phase.Prefilling? || phase.Decoding? <==> id in st.active)
    && (phase.Waiting? <==> id in st.waiting)
  }

  ghost predicate Arranged(st: State, predict: seq<Slot> -> Token) {
    && Consistent(st.store, predict)
    && st.store.tables.Keys == st.active + st.reserved && st.active !! st.reserved
    && (forall r | r in st.reserved :: st.store.tables[r].length == 0)
    && (forall id | id in st.active :: id in st.gens)
    && (forall id | id in st.gens :: id != "" && id !in st.reserved && Placed(st, id))
    && (forall id | id in st.waiting :: id in st.gens)
    && Distinct(st.waiting)
  }

  // The engine's invariant.
  ghost predicate Inv(st: State, predict: seq<Slot> -> Token, eos: set<Token>) {
    && Arranged(st, predict)
    && (forall id | id in st.active :: RowOk(st.store, id, st.gens[id]))
    && (forall id | id in st.gens :: GenOk(st.gens[id], predict, eos))
  }

  // The same while one request is between committing K/V and settling what became of it.
  ghost predicate InvBut(st: State, but: string, predict: seq<Slot> -> Token, eos: set<Token>) {
    && Arranged(st, predict)
    && (forall id | id in st.active && id != but :: RowOk(st.store, id, st.gens[id]))
    && (forall id | id in st.gens && id != but :: GenOk(st.gens[id], predict, eos))
  }

  lemma InvButFacts(st: State, but: string, predict: seq<Slot> -> Token, eos: set<Token>)
    requires InvBut(st, but, predict, eos) && but in st.active
    ensures but in st.store.tables
  {
  }

  // ---- what the invariant means -----------------------------------------------------------

  // Refinement: whatever sharing, copying, eviction and preemption happened, gathering a live
  // request's blocks gives the K/V of that request's own tokens, as if it had run alone.
  lemma GatherIsOwnRun(st: State, predict: seq<Slot> -> Token, eos: set<Token>, id: string)
    requires Inv(st, predict, eos) && id in st.active
    ensures id in st.gens && id in st.store.tables && Rectangular(st.store.pool, st.store.size)
    ensures forall b: nat | b in st.store.tables[id].blocks :: b < |st.store.pool|
    ensures var t := st.store.tables[id]; var tokens := st.gens[id].Tokens();
            && t.length <= |tokens|
            && Gather(st.store.pool, st.store.size, t, t.length) == Some(KvOf(tokens[..t.length]))
  {
    hide Exclusive, CacheAlive, CatalogHolds, EntryHolds, Stored, GenOk, KvOf;
    TablePagesInPool(st.store, id);
    var t := st.store.tables[id];
    StoredIsGathered(st.store.pool, st.store.size, t, KvOf(st.gens[id].Tokens()[..t.length]));
  }

  // Token identity: a finished greedy request produced the model's greedy continuation of its
  // prompt, cut where greedy decoding on its own would stop.
  lemma FinishedIsGreedyRun(st: State, predict: seq<Slot> -> Token, eos: set<Token>, id: string)
    requires Inv(st, predict, eos) && id in st.gens && st.gens[id].phase.Finished? && st.gens[id].greedy
    ensures st.gens[id].outputs == GreedyRun(ModelOf(predict), st.gens[id].prompt, st.gens[id].Ends(eos),
                                             st.gens[id].maxNew)
  {
    var g := st.gens[id];
    assert GenOk(g, predict, eos);
    CompleteChainIsGreedyRun(ModelOf(predict), g.prompt, g.outputs, g.Ends(eos), g.maxNew);
  }

  // And before it finishes, its outputs are a prefix of that continuation.
  lemma RunningIsGreedyPrefix(st: State, predict: seq<Slot> -> Token, eos: set<Token>, id: string)
    requires Inv(st, predict, eos) && id in st.gens && !st.gens[id].phase.Finished? && st.gens[id].greedy
    ensures st.gens[id].outputs <= GreedyRun(ModelOf(predict), st.gens[id].prompt, st.gens[id].Ends(eos),
                                             st.gens[id].maxNew)
  {
    var g := st.gens[id];
    assert GenOk(g, predict, eos);
    OpenChainIsPrefix(ModelOf(predict), g.prompt, g.outputs, g.Ends(eos), g.maxNew);
  }

  lemma OpenChainIsPrefix(m: Model, context: seq<Token>, tokens: seq<Token>, ends: set<Token>, max: nat)
    requires Chain(m, context, tokens) && Open(tokens, ends) && |tokens| <= max
    ensures tokens <= GreedyRun(m, context, ends, max)
  {
    var whole := GreedyRun(m, context, ends, max);
    CompleteChainIsGreedyRun(m, context, whole, ends, max);
    if |whole| < |tokens| {
      ChainsAgree(m, context, whole, tokens);
    } else {
      ChainsAgree(m, context, tokens, whole);
    }
  }

  // Length invariant of the decode phase.
  lemma DecodingLength(st: State, predict: seq<Slot> -> Token, eos: set<Token>, id: string)
    requires Inv(st, predict, eos) && id in st.gens && st.gens[id].phase.Decoding?
    ensures id in st.store.tables
    ensures st.store.tables[id].length == |st.gens[id].prompt| + |st.gens[id].outputs| - 1
  {
    assert Placed(st, id);
  }

  // Write exclusivity: every block with a slot in [length, target) has one owner.
  lemma WriteExclusivity(s: Store, id: string, target: nat, position: nat)
    requires s.size > 0 && WriteReady(s, id, target) && s.tables[id].length <= position < target
    ensures position / s.size < |s.tables[id].blocks|
    ensures Holders(s.owned, s.tables[id].blocks[position / s.size]) == {Request(id)}
  {
    DivBounds(position, s.size);
    MulLess(position / s.size, |s.tables[id].blocks|, s.size);
    var k := position / s.size;
    assert (k + 1) * s.size == k * s.size + s.size;
    assert Private(s.owned, id, s.tables[id].blocks[k]);
  }

  // How many tokens of an active request have committed K/V.
  function CommittedLength(g: Generation): nat {
    if g.phase.Decoding? then |g.Tokens()| - (if g.outputs == [] then 0 else 1) else g.prefilled
  }

  // A first prefill never asks for more than the prompt.
  predicate WithinPrompt(g: Generation, target: nat) {
    g.phase.Prefilling? && !g.resuming ==> target <= |g.prompt|
  }

  lemma ActiveRow(st: State, id: string, predict: seq<Slot> -> Token, eos: set<Token>)
    requires Inv(st, predict, eos) && id in st.active
    ensures id in st.gens && id in st.store.tables && id !in st.reserved
    ensures st.gens[id].phase.Prefilling? || st.gens[id].phase.Decoding?
    ensures RowOk(st.store, id, st.gens[id]) && GenOk(st.gens[id], predict, eos) && Consistent(st.store, predict)
    ensures st.store.tables[id].length == CommittedLength(st.gens[id])
    ensures st.active <= st.gens.Keys && st.active <= st.store.tables.Keys && st.store.size > 0
  {
    assert Placed(st, id);
  }

  // ---- frames -----------------------------------------------------------------------------

  // Rows that took no part in a change keep what they had.
  lemma RowUndisturbed(a: Store, b: Store, id: string, g: Generation)
    requires RowOk(a, id, g) && Undisturbed(a, b, id)
    ensures RowOk(b, id, g)
  {
    UndisturbedKeeps(a, b, id, KvOf(g.Tokens()[..a.tables[id].length]), 0);
  }

  // The acting request still has its run, in a table at most as long as allowed.
  ghost predicate SameRun(a: Store, b: Store, id: string) {
    && a.size == b.size && id in a.tables && id in b.tables
    && b.tables[id].length == a.tables[id].length
    && (forall values :: Stored(a.pool, a.size, a.tables[id].blocks, values) ==>
                         Stored(b.pool, b.size, b.tables[id].blocks, values))
  }

  lemma SameRunTransitive(a: Store, b: Store, c: Store, id: string)
    requires SameRun(a, b, id) && SameRun(b, c, id)
    ensures SameRun(a, c, id)
  {
  }

  lemma UndisturbedIsSameRun(a: Store, b: Store, id: string)
    requires Undisturbed(a, b, id)
    ensures SameRun(a, b, id)
  {
    hide AllPrivate;
  }

  lemma RowSameRun(a: Store, b: Store, id: string, g: Generation)
    requires RowOk(a, id, g) && SameRun(a, b, id)
    requires |b.tables[id].blocks| <= |a.tables[id].blocks|
          || (g.phase.Prefilling? && a.size > 0 && |b.tables[id].blocks| <= BlocksFor(|g.prompt|, a.size))
          || !g.phase.Prefilling? || g.resuming
    ensures RowOk(b, id, g)
  {
  }

  // Every other row of the store is undisturbed.
  ghost predicate OthersUndisturbed(a: Store, b: Store, id: string) {
    forall other | other in a.tables && other != id :: Undisturbed(a, b, other)
  }

  lemma OthersTransitive(a: Store, b: Store, c: Store, id: string)
    requires OthersUndisturbed(a, b, id) && OthersUndisturbed(b, c, id)
    ensures OthersUndisturbed(a, c, id)
  {
    forall other | other in a.tables && other != id ensures Undisturbed(a, c, other) {
      UndisturbedTransitive(a, b, c, other);
    }
  }

  lemma PlacedAgain(a: State, b: State, id: string)
    requires id in a.gens && id in b.gens && Placed(a, id)
    requires b.gens[id].phase == a.gens[id].phase && (id in b.active <==> id in a.active)
    requires id in b.waiting <==> id in a.waiting
    ensures Placed(b, id)
  {
  }

  lemma PlacedActive(a: State, b: State, id: string)
    requires id in a.gens && id in b.gens && Placed(a, id) && id in a.active && id in b.active && b.waiting == a.waiting
    requires b.gens[id].phase.Prefilling? || b.gens[id].phase.Decoding?
    ensures Placed(b, id)
  {
  }

  lemma ActiveNotWaiting(st: State, id: string)
    requires id in st.gens && Placed(st, id) && id in st.active
    ensures id !in st.waiting
  {
  }

  lemma PlacedGone(a: State, b: State, id: string)
    requires id in a.gens && id in b.gens && Placed(a, id) && id in a.active && id !in b.active
    requires !b.gens[id].phase.Prefilling? && !b.gens[id].phase.Decoding?
    requires id in b.waiting <==> b.gens[id].phase.Waiting?
    ensures Placed(b, id) && id !in a.waiting
  {
  }

  // A change of the store in which only `id` acted, and kept its row, keeps the invariant.
  lemma StoreChangeKeepsInv(st: State, after: Store, id: string, predict: seq<Slot> -> Token, eos: set<Token>)
    requires Inv(st, predict, eos) && Consistent(after, predict)
    requires after.tables.Keys == st.store.tables.Keys && OthersUndisturbed(st.store, after, id)
    requires id in st.active ==> RowOk(after, id, st.gens[id])
    requires id !in st.reserved
    ensures Inv(st.(store := after), predict, eos)
  {
    hide Consistent, RowOk, GenOk, Stored, AllPrivate;
    forall other | other in st.active ensures RowOk(after, other, st.gens[other]) {
      if other != id { RowUndisturbed(st.store, after, other, st.gens[other]); }
    }
    forall r | r in st.reserved ensures after.tables[r].length == 0 {
      assert Undisturbed(st.store, after, r);
    }
  }

  // An active request moves on while its row stays what it should be.
  lemma ProgressKeepsInv(st: State, id: string, g: Generation, predict: seq<Slot> -> Token, eos: set<Token>)
    requires InvBut(st, id, predict, eos) && id in st.active
    requires g.phase.Prefilling? || g.phase.Decoding?
    requires GenOk(g, predict, eos) && RowOk(st.store, id, g)
    ensures Inv(st.(gens := st.gens[id := g]), predict, eos)
  {
    hide Consistent, RowOk, GenOk, Placed;
    var w := st.(gens := st.gens[id := g]);
    forall other | other in w.gens ensures Placed(w, other) {
      if other != id { PlacedAgain(st, w, other); } else { PlacedActive(st, w, id); }
    }
  }

  // A request leaves the active set: its blocks are released and it is finished, failed,
  // cancelled, or back in the queue.
  lemma DepartKeepsInv(st: State, id: string, g: Generation, waiting: seq<string>, predict: seq<Slot> -> Token,
                       eos: set<Token>)
    requires InvBut(st, id, predict, eos) && id in st.active
    requires !g.phase.Prefilling? && !g.phase.Decoding? && GenOk(g, predict, eos)
    requires Distinct(waiting) && forall x :: x in waiting <==> x in st.waiting || (x == id && g.phase.Waiting?)
    ensures id in st.store.tables
    ensures Inv(State(Released(st.store, id), st.gens[id := g], st.active - {id}, waiting, st.reserved), predict, eos)
    ensures OthersUndisturbed(st.store, Released(st.store, id), id)
  {
    hide Consistent, RowOk, GenOk, AllPrivate, Undisturbed, Placed;
    var after := Released(st.store, id);
    ReleaseKeeps(st.store, id, predict);
    var w := State(after, st.gens[id := g], st.active - {id}, waiting, st.reserved);
    assert Placed(st, id) && id !in st.waiting by { ActiveNotWaiting(st, id); }
    forall other | other in w.active ensures RowOk(after, other, w.gens[other]) {
      RowUndisturbed(st.store, after, other, st.gens[other]);
    }
    forall other | other in w.gens ensures Placed(w, other) {
      if other != id { PlacedAgain(st, w, other); } else { PlacedGone(st, w, id); }
    }
    assert after.tables.Keys == w.active + w.reserved;
  }

  // Admission of a waiting request over the table it was given.
  lemma AdmissionKeepsInv(st: State, id: string, t: Table, g: Generation, waiting: seq<string>,
                          predict: seq<Slot> -> Token, eos: set<Token>)
    requires Inv(st, predict, eos) && id in st.waiting && id !in st.store.tables
    requires Consistent(WithTable(st.store, id, t), predict)
    requires OthersUndisturbed(st.store, WithTable(st.store, id, t), id)
    requires g.phase.Prefilling? && GenOk(g, predict, eos) && RowOk(WithTable(st.store, id, t), id, g)
    requires Distinct(waiting) && forall x :: x in waiting <==> x in st.waiting && x != id
    ensures Inv(State(WithTable(st.store, id, t), st.gens[id := g], st.active + {id}, waiting, st.reserved), predict,
                eos)
  {
    hide Consistent, RowOk, GenOk, AllPrivate;
    var after := WithTable(st.store, id, t);
    var w := State(after, st.gens[id := g], st.active + {id}, waiting, st.reserved);
    assert Placed(st, id);
    forall other | other in w.active ensures other in w.gens && RowOk(after, other, w.gens[other]) {
      if other != id { RowUndisturbed(st.store, after, other, st.gens[other]); }
    }
    forall r | r in w.reserved ensures after.tables[r].length == 0 { assert Undisturbed(st.store, after, r); }
    forall other | other in w.gens ensures Placed(w, other) { assert other in st.gens && Placed(st, other); }
    assert after.tables.Keys == w.active + w.reserved;
  }

  // Queue changes: a new request joins, or a queued one is rejected or cancelled.
  lemma QueueKeepsInv(st: State, id: string, g: Generation, waiting: seq<string>, predict: seq<Slot> -> Token,
                      eos: set<Token>)
    requires Inv(st, predict, eos) && id !in st.active && id !in st.reserved && id != ""
    requires !g.phase.Prefilling? && !g.phase.Decoding? && GenOk(g, predict, eos)
    requires Distinct(waiting)
    requires forall x :: x in waiting <==> (x in st.waiting && x != id) || (x == id && g.phase.Waiting?)
    ensures Inv(st.(gens := st.gens[id := g], waiting := waiting), predict, eos)
  {
    hide Consistent, RowOk, GenOk;
    var w := st.(gens := st.gens[id := g], waiting := waiting);
    forall other | other in w.gens ensures Placed(w, other) { if other != id { assert Placed(st, other); } }
  }

  // ---- conservation -----------------------------------------------------------------------

  // The blocks set aside for padded graph rows.
  function SetAside(tables: map<string, Table>, dummy: string): seq<nat> {
    if dummy in tables then tables[dummy].blocks else []
  }

  // Once no request is active, the used blocks are the permanently reserved ones and the
  // distinct cached ones, and no block is both.
  lemma DrainConservation(st: State, v: View, predict: seq<Slot> -> Token, eos: set<Token>, dummy: string)
    requires Inv(st, predict, eos) && st.active == {} && st.reserved <= {dummy}
    requires Coherent(v, st.store.size) && v.owned == st.store.owned
    ensures var aside := SetAside(st.store.tables, dummy);
            && Members(aside) !! v.references.Keys
            && Used(v.owned, |st.store.pool|) == Members(aside) + v.references.Keys
            && |Used(v.owned, |st.store.pool|)| == |aside| + |v.references|
  {
    hide GenOk, RowOk, Placed, Forest, Stamped, Owns, CatalogHolds, EntryHolds, Shaped, Exclusive, Referenced, Used;
    assert forall id | id in st.store.tables ::
        id == dummy && st.store.tables[id].length == 0 && Exclusive(st.store, id);
    DrainedStore(st.store, v, dummy);
  }

  lemma DrainedStore(s: Store, v: View, dummy: string)
    requires Shaped(s) && Referenced(v) && v.owned == s.owned
    requires forall id | id in s.tables :: id == dummy && s.tables[id].length == 0 && Exclusive(s, id)
    ensures var aside := SetAside(s.tables, dummy);
            && Members(aside) !! v.references.Keys
            && Used(s.owned, |s.pool|) == Members(aside) + v.references.Keys
            && |Used(s.owned, |s.pool|)| == |aside| + |v.references|
  {
    var aside := SetAside(s.tables, dummy);
    hide Exclusive, Referenced, Used;
    if dummy in s.tables { DummyIsPrivate(s, dummy); }
    DrainedBlocks(s, v, dummy, aside);
    SplitSize(Used(s.owned, |s.pool|), aside, v.references);
  }

  lemma SplitSize(used: set<nat>, aside: seq<nat>, references: map<nat, nat>)
    requires Distinct(aside) && forall b: nat | b in aside :: b !in references
    requires forall b: nat :: b in used <==> b in aside || b in references
    ensures Members(aside) !! references.Keys && used == Members(aside) + references.Keys
    ensures |used| == |aside| + |references|
  {
    DistinctSize(aside);
    assert used == Members(aside) + references.Keys;
    assert |references| == |references.Keys|;
  }

  lemma DrainedBlocks(s: Store, v: View, dummy: string, aside: seq<nat>)
    requires Shaped(s) && Referenced(v) && v.owned == s.owned && aside == SetAside(s.tables, dummy)
    requires forall id | id in s.tables :: id == dummy
    requires forall x: nat | x in aside :: CacheHolders(s.owned, x) == {}
    ensures forall b: nat :: b in Used(s.owned, |s.pool|) <==> b in aside || b in v.references
    ensures forall b: nat | b in aside :: b !in v.references
  {
    hide Shaped, Exclusive, Referenced, Used;
    forall b: nat
      ensures b in Used(s.owned, |s.pool|) <==> b in aside || b in v.references
      ensures b in aside ==> b !in v.references
    {
      UsedByDummyOrCache(s, v, dummy, b);
    }
  }

  lemma DummyIsPrivate(s: Store, dummy: string)
    requires Shaped(s) && dummy in s.tables && s.tables[dummy].length == 0 && Exclusive(s, dummy)
    ensures forall b: nat | b in s.tables[dummy].blocks ::
              Holders(s.owned, b) == {Request(dummy)} && CacheHolders(s.owned, b) == {}
    ensures Distinct(s.tables[dummy].blocks)
  {
    var t := s.tables[dummy];
    TablePagesInPool(s, dummy);
    forall b: nat | b in t.blocks ensures Private(s.owned, dummy, b) && CacheHolders(s.owned, b) == {} {
      var k :| 0 <= k < |t.blocks| && t.blocks[k] == b;
      MulMono(1, k + 1, s.size);
      PrivateIsElsewhere(s.owned, dummy, b);
    }
  }

  lemma UsedByDummyOrCache(s: Store, v: View, dummy: string, b: nat)
    requires Shaped(s) && Referenced(v) && v.owned == s.owned && forall id | id in s.tables :: id == dummy
    requires forall x: nat | x in SetAside(s.tables, dummy) :: CacheHolders(s.owned, x) == {}
    ensures b in Used(s.owned, |s.pool|) <==> b in SetAside(s.tables, dummy) || b in v.references
    ensures b in SetAside(s.tables, dummy) ==> b !in v.references
  {
    assert b in v.references <==> RefCount(v.references, b) > 0;
    assert RefCount(v.references, b) > 0 <==> CacheHolders(s.owned, b) != {};
    if b in Used(s.owned, |s.pool|) {
      var o :| o in Holders(s.owned, b);
      if o.Request? { assert o.id in s.tables; } else { assert o in CacheHolders(s.owned, b); }
    }
    if b in SetAside(s.tables, dummy) { TablePagesInPool(s, dummy); }
    if CacheHolders(s.owned, b) != {} {
      var o :| o in CacheHolders(s.owned, b);
      assert o in Holders(s.owned, b) && b in s.owned[o];
    }
  }
}
