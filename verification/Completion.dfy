// Finishing a prefill: publishing the prompt, then decoding
// (engine/batching/continuous_batching.py, `_publish_prefix` and `_complete_prefill`).
module Completion {
  import opened Common
  import opened Ownership
  import opened Reclaiming
  import opened Paging
  import opened PrefixForest
  import opened PrefixCaching
  import opened PagedStore
  import opened GreedyDecoding
  import opened Lifecycle
  import opened Yielding
  import opened CapacityFacts
  import opened Batching

  ghost function WithCache(s: Store, v: View): Store
    requires forall p | p in v.index :: v.index[p] in v.nodes
  {
    s.(owned := v.owned, catalog := Catalog(v), exact := v.exact)
  }

  // `kept` is what a publish retained; the cache has that, less what its size limit took away.
  ghost predicate Offering(before: View, kept: View, catalog: map<seq<Token>, nat>, exact: Entries, tokens: seq<Token>,
                           t: Table, size: nat, next: Option<Token>, maxBlocks: nat)
    requires size > 0
  {
    && Kept(before, kept, tokens, t.blocks, size, next, maxBlocks)
    && SubCatalog(catalog, Catalog(kept)) && SubEntries(exact, kept.exact)
    && (|kept.references| <= maxBlocks ==> catalog == Catalog(kept) && exact == kept.exact)
  }

  lemma OfferingMade(before: View, kept: View, after: View, tokens: seq<Token>, t: Table, size: nat,
                     next: Option<Token>, maxBlocks: nat)
    requires size > 0 && Kept(before, kept, tokens, t.blocks, size, next, maxBlocks) && Shrinks(kept, after)
    requires |kept.references| <= maxBlocks ==> after == kept
    ensures Offering(before, kept, Catalog(after), after.exact, tokens, t, size, next, maxBlocks)
  {
    hide Kept, Catalog;
  }

  // The row of a fully prefilled request, as publishing needs it.
  lemma PromptIsStored(s: Store, id: string, g: Generation, predict: seq<Slot> -> Token)
    requires Consistent(s, predict) && RowOk(s, id, g) && FullyPrefilled(g) && g.prompt != []
    requires g.resuming <==> g.outputs != []
    ensures |g.prompt| <= s.tables[id].length && s.size > 0
    ensures Stored(s.pool, s.size, s.tables[id].blocks, KvOf(g.prompt))
    ensures !g.resuming ==> s.tables[id].length == |g.prompt| && |s.tables[id].blocks| == BlocksFor(|g.prompt|, s.size)
  {
    hide Stored, KvOf;
    var t := s.tables[id];
    assert g.Tokens()[..t.length][..|g.prompt|] == g.prompt;
    StoredPrefix(s.pool, s.size, t.blocks, g.Tokens()[..t.length], |g.prompt|);
    if !g.resuming {
      FewestBlocks(t.length, |t.blocks|, s.size);
    }
  }

  lemma FewestBlocks(length: nat, blocks: nat, size: nat)
    requires size > 0 && length <= blocks * size
    ensures BlocksFor(length, size) <= blocks
  {
    if BlocksFor(length, size) > blocks { RoomNeeded(length, blocks, size); }
  }

  // What the cache kept is a publish change of the store.
  lemma KeptIsPublishChange(s: Store, before: View, kept: View, id: string, tokens: seq<Token>, next: Option<Token>,
                            maxBlocks: nat)
    requires id in s.tables && s.size > 0 && Kept(before, kept, tokens, s.tables[id].blocks, s.size, next, maxBlocks)
    requires s.catalog == Catalog(before) && s.owned == before.owned && s.exact == before.exact
    ensures PublishChange(s, WithCache(s, kept), id, tokens, next, maxBlocks)
  {
    hide Catalog, LedgerGrew, Offered;
  }

  // Publishing and then shrinking to the limit: consistent, and nobody else notices.
  lemma PublishedKeeps(s: Store, after: Store, before: View, kept: View, final: View, id: string, tokens: seq<Token>,
                       next: Option<Token>, maxBlocks: nat, predict: seq<Slot> -> Token)
    requires id in s.tables && s.size > 0
    requires Kept(before, kept, tokens, s.tables[id].blocks, s.size, next, maxBlocks) && Shrinks(kept, final)
    requires s.catalog == Catalog(before) && s.owned == before.owned && s.exact == before.exact
    requires after == WithCache(s, final) && Consistent(s, predict)
    requires Coherent(kept, s.size) && WellFormed(kept.owned, |s.pool|) && Mirrors(kept.owned, s.tables, s.size)
    requires Coherent(final, s.size) && WellFormed(final.owned, |s.pool|)
    requires tokens != [] && |tokens| <= s.tables[id].length
    requires Stored(s.pool, s.size, s.tables[id].blocks, KvOf(tokens))
    requires next.Some? ==> && next.value == predict(KvOf(tokens))
                            && |s.tables[id].blocks| == BlocksFor(|tokens|, s.size) && s.tables[id].length == |tokens|
    ensures Consistent(after, predict) && OthersUndisturbed(s, after, id)
  {
    hide Coherent, Kept, Stored, KvOf, Catalog, EntryHolds, CatalogHolds, Exclusive, Undisturbed, CacheAlive, Mirrors,
         WellFormed, LedgerShrank, SubCatalog, SubEntries, Shaped;
    var middle := WithCache(s, kept);
    ShapedAgain(s, middle);
    CoherentIsAlive(kept, middle);
    CoherentIsAlive(final, after);
    KeptIsPublishChange(s, before, kept, id, tokens, next, maxBlocks);
    PublishKeeps(s, middle, id, tokens, next, maxBlocks, predict);
    EvictKeeps(middle, after, predict);
    OthersTransitive(s, middle, after, id);
  }

  lemma ShapedAgain(s: Store, w: Store)
    requires Shaped(s) && w == s.(owned := w.owned, catalog := w.catalog, exact := w.exact)
    requires Mirrors(w.owned, s.tables, s.size) && WellFormed(w.owned, |s.pool|)
    ensures Shaped(w)
  {
  }

  // The cache changed, the pages and the tables did not.
  lemma CacheChangeKeepsRow(a: Store, b: Store, id: string, g: Generation)
    requires RowOk(a, id, g) && b == a.(owned := b.owned, catalog := b.catalog, exact := b.exact)
    ensures RowOk(b, id, g)
  {
  }

  lemma PrefillingFacts(g: Generation, predict: seq<Slot> -> Token, eos: set<Token>)
    requires GenOk(g, predict, eos) && g.phase.Prefilling?
    ensures g.prompt != [] && (g.resuming <==> g.outputs != []) && |g.outputs| < g.maxNew
  {
  }

  lemma ResumedOk(s: Store, id: string, g: Generation, predict: seq<Slot> -> Token, eos: set<Token>)
    requires GenOk(g, predict, eos) && RowOk(s, id, g) && FullyPrefilled(g) && g.resuming
    ensures g.outputs != []
    ensures var h := Completed(g, None, eos);
            GenOk(h, predict, eos) && RowOk(s, id, h) && Continues(g, h) && h.phase.Decoding?
    ensures forall predicted :: Completed(g, predicted, eos) == Completed(g, None, eos)
  {
    hide Stored, KvOf;
  }

  lemma FirstTokenOk(s: Store, id: string, g: Generation, token: Token, predict: seq<Slot> -> Token, eos: set<Token>)
    requires GenOk(g, predict, eos) && RowOk(s, id, g) && FullyPrefilled(g) && !g.resuming
    requires g.greedy ==> token == predict(KvOf(g.prompt))
    ensures RowOk(s, id, AfterEmitting(g, [token]))
    ensures GenOk(Emitted(g, [token], eos), predict, eos) && Continues(g, Emitted(g, [token], eos))
  {
    hide Stored, KvOf;
    assert g.outputs == [];
    assert g.prompt + [] == g.prompt;
    if g.greedy { ChainGrows(ModelOf(predict), g.prompt, g.outputs, token); }
    EmissionOk(g, [token], predict, eos);
    var h := AfterEmitting(g, [token]);
    assert h.Tokens()[..s.tables[id].length] == g.Tokens()[..s.tables[id].length];
  }

  lemma InvalidEntryOk(g: Generation, predict: seq<Slot> -> Token, eos: set<Token>)
    requires GenOk(g, predict, eos) && g.Live()
    ensures GenOk(g.(phase := Failed, reason := InvalidPrefixEntry), predict, eos)
  {
  }

  // ---- prompts kept for reuse -------------------------------------------------------------

  // Started decoding greedily, after its first prefill.
  ghost predicate FirstDecode(a: State, b: State, id: string) {
    && id in a.gens && id in b.gens && a.gens[id].greedy && !a.gens[id].resuming
    && a.gens[id].phase.Prefilling? && b.gens[id].phase.Decoding?
  }

  // Whoever did has its prompt among the exact entries.
  ghost predicate Filed(a: State, b: State) {
    forall id | FirstDecode(a, b, id) :: a.gens[id].prompt in b.store.exact
  }

  // And no entry was lost.
  ghost predicate Archived(a: State, b: State) {
    Filed(a, b) && forall key | key in a.store.exact :: key in b.store.exact
  }

  // A cache that may hold as many blocks as there are never evicts for its own bound.
  lemma NothingOverLimit(kept: View, size: nat, pages: nat)
    requires Coherent(kept, size) && WellFormed(kept.owned, pages)
    ensures |kept.references| <= pages
  {
    hide Forest, Stamped, Owns;
    forall b: nat | b in kept.references ensures b < pages {
      assert RefCount(kept.references, b) == |CacheHolders(kept.owned, b)|;
      assert CacheHolders(kept.owned, b) != {};
      var o :| o in CacheHolders(kept.owned, b);
    }
    SubsetSize(kept.references.Keys, Below(pages));
  }

  lemma PromptFiled(before: View, kept: View, catalog: map<seq<Token>, nat>, exact: Entries, tokens: seq<Token>,
                    t: Table, size: nat, next: Option<Token>, maxBlocks: nat)
    requires size > 0 && Offering(before, kept, catalog, exact, tokens, t, size, next, maxBlocks)
    requires |kept.references| <= maxBlocks && BlocksFor(|tokens|, size) <= maxBlocks
    ensures forall key | key in before.exact :: key in exact
    ensures next.Some? ==> tokens in exact
  {
    hide Offered, LedgerGrew, Catalog;
  }

  // One request finished its prefill.
  lemma OneArchived(a: State, b: State, id: string)
    requires forall x | x in a.gens && x in b.gens && x != id :: b.gens[x] == a.gens[x]
    requires forall key | key in a.store.exact :: key in b.store.exact
    requires FirstDecode(a, b, id) ==> a.gens[id].prompt in b.store.exact
    ensures Archived(a, b)
  {
  }

  lemma ArchivedSelf(st: State)
    ensures Archived(st, st)
  {
  }

  // Nothing happened to the cache, and nobody finished a prefill.
  lemma NothingFiled(a: State, b: State, id: string)
    requires Moved(a, b, {id}) && b.store.exact == a.store.exact
    requires id in a.gens && !a.gens[id].phase.Prefilling?
    ensures Archived(a, b)
  {
    hide Continues, Undisturbed;
  }

  lemma ArchivedOn(a: State, turn: State, now: State, ids: set<string>, id: string)
    requires Archived(a, turn) && Archived(turn, now) && Moved(a, turn, ids) && Moved(turn, now, {id}) && id !in ids
    ensures Archived(a, now)
  {
    hide Continues, Undisturbed;
    forall x | FirstDecode(a, now, x) ensures a.gens[x].prompt in now.store.exact {
      if x == id {
        assert FirstDecode(turn, now, x);
      } else {
        assert FirstDecode(a, turn, x);
      }
    }
  }

  // The record of the request differs in how much is prefilled.
  lemma FilledArchived(a: State, middle: State, b: State, id: string, prefilled: nat)
    requires id in a.gens && middle.gens == a.gens[id := a.gens[id].(prefilled := prefilled)]
    requires middle.store.exact == a.store.exact && Archived(middle, b)
    ensures Archived(a, b)
  {
    forall x | FirstDecode(a, b, x) ensures a.gens[x].prompt in b.store.exact { assert FirstDecode(middle, b, x); }
  }

  lemma StagedArchived(a: State, staged: State, b: State)
    requires staged.gens == a.gens && staged.store.exact == a.store.exact && Archived(staged, b)
    ensures Archived(a, b)
  {
    forall x | FirstDecode(a, b, x) ensures a.gens[x].prompt in b.store.exact { assert FirstDecode(staged, b, x); }
  }

  lemma ArchivedIsFiled(a: State, b: State)
    ensures Archived(a, b) ==> Filed(a, b)
  {
  }

  lemma DecodesAlready(st: State, id: string, emitted: seq<Token>, predict: seq<Slot> -> Token, eos: set<Token>)
    requires EmitReady(st, id, emitted, predict, eos)
    ensures id in st.gens && st.gens[id].phase.Decoding?
  {
  }

  lemma StillArchived(a: State, turn: State, now: State, work: seq<Outcome>, i: nat)
    requires i < |work| && DistinctOutcomes(work) && Moved(a, turn, Ids(work[..i])) && Moved(turn, now, {work[i].id})
    ensures Archived(a, turn) && Archived(turn, now) ==> Archived(a, now)
  {
    hide Moved, Archived;
    IdsGrow(work, i);
    if Archived(a, turn) && Archived(turn, now) { ArchivedOn(a, turn, now, Ids(work[..i]), work[i].id); }
  }

  // The prompt of a fully prefilled request covers no more blocks than there are.
  lemma PromptFits(s: Store, id: string, g: Generation, predict: seq<Slot> -> Token)
    requires Consistent(s, predict) && id in s.tables && RowOk(s, id, g) && FullyPrefilled(g)
    requires g.resuming <==> g.outputs != []
    ensures s.size > 0 && BlocksFor(|g.prompt|, s.size) <= |s.pool|
  {
    hide Stored, KvOf;
    TableFacts(s, predict, id);
    TablePagesInPool(s, id);
    FewestBlocks(|g.prompt|, |s.tables[id].blocks|, s.size);
    FewestPages(s.tables[id].blocks, |s.pool|);
  }

  lemma FewestPages(blocks: seq<nat>, pages: nat)
    requires Distinct(blocks) && forall b | b in blocks :: b < pages
    ensures |blocks| <= pages
  {
    DistinctSize(blocks);
    SubsetSize(Members(blocks), Below(pages));
  }

  lemma FiledByRun(a: State, middle: State, b: State, rows: seq<Plan>, eos: set<Token>, epoch: nat)
    requires Thinned(a, middle, epoch) && Archived(middle, b) && Moved(middle, b, RowIds(rows))
    requires forall plan | plan in rows :: plan.id in middle.active
    ensures Filed(a, b)
  {
    hide Continues, Undisturbed;
    forall x | FirstDecode(a, b, x) ensures a.gens[x].prompt in b.store.exact { assert FirstDecode(middle, b, x); }
  }

  // Whoever gave way while the batch looked for room starts nothing.
  lemma FiledThroughRoom(a: State, middle: State, b: State, tasks: set<Plan>, eos: set<Token>, epoch: nat, later: nat)
    requires Thinned(a, middle, epoch) && BatchProgress(middle, b, tasks, eos, later) && Filed(middle, b)
    ensures Filed(a, b)
  {
    hide CarriedOut, GaveWay, Continues;
    forall x | FirstDecode(a, b, x) ensures a.gens[x].prompt in b.store.exact { assert FirstDecode(middle, b, x); }
  }
}
