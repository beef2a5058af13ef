// What the rows of a batch must have before a forward pass and before their commit, and the
// changes one row may make without the other rows noticing.
module Batching {
  import opened Common
  import opened Ownership
  import opened Paging
  import opened PagedStore
  import opened GreedyDecoding
  import opened Lifecycle
  import opened Arrival
  import opened Yielding
  import opened CapacityFacts
  import opened DraftAcceptance

  // A row with exclusive room for `count` more tokens.
  ghost predicate Ready(st: State, id: string, count: nat) {
    && id in st.active && id in st.gens && id in st.store.tables
    && st.store.tables[id].length <= |st.gens[id].Tokens()|
    && WriteReady(st.store, id, st.store.tables[id].length + count)
  }

  // The tokens whose K/V is committed.
  function Context(st: State, id: string): seq<Token>
    requires id in st.gens && id in st.store.tables && st.store.tables[id].length <= |st.gens[id].Tokens()|
  {
    st.gens[id].Tokens()[..st.store.tables[id].length]
  }

  // A ready row whose pages already hold the K/V of the tokens it is about to commit.
  ghost predicate Staged(st: State, id: string, ahead: seq<Token>) {
    && Ready(st, id, |ahead|)
    && Stored(st.store.pool, st.store.size, st.store.tables[id].blocks, KvOf(Context(st, id) + ahead))
  }

  // Left alone, a row stays ready and staged.
  lemma ReadyKept(a: State, b: State, id: string, count: nat)
    requires Ready(a, id, count) && Undisturbed(a.store, b.store, id)
    requires id in b.active && id in b.gens && b.gens[id] == a.gens[id]
    ensures Ready(b, id, count)
  {
    UndisturbedKeeps(a.store, b.store, id, [], a.store.tables[id].length + count);
  }

  lemma StagedKept(a: State, b: State, id: string, ahead: seq<Token>)
    requires Staged(a, id, ahead) && Undisturbed(a.store, b.store, id)
    requires id in b.active && id in b.gens && b.gens[id] == a.gens[id]
    ensures Staged(b, id, ahead)
  {
    hide WriteReady, Undisturbed;
    UndisturbedFacts(a.store, b.store, id);
    ReadyKept(a, b, id, |ahead|);
    UndisturbedKeeps(a.store, b.store, id, KvOf(Context(a, id) + ahead), 0);
  }

  lemma UndisturbedFacts(a: Store, b: Store, id: string)
    requires Undisturbed(a, b, id)
    ensures a.size == b.size && id in a.tables && id in b.tables && b.tables[id] == a.tables[id]
  {
  }

  // Only the requests in `ids` moved on; the others kept everything.
  ghost predicate Moved(a: State, b: State, ids: set<string>) {
    && b.reserved == a.reserved && b.gens.Keys == a.gens.Keys
    && Evolves(a.gens, b.gens)
    && (forall x | x in a.gens && x !in ids :: b.gens[x] == a.gens[x])
    && a.active - ids <= b.active <= a.active <= a.gens.Keys
    && (forall x | x in a.active && x !in ids :: Undisturbed(a.store, b.store, x))
  }

  lemma MovedOn(a: State, b: State, c: State, first: set<string>, second: set<string>)
    requires Moved(a, b, first) && Moved(b, c, second)
    ensures Moved(a, c, first + second)
  {
    hide Undisturbed, Continues;
    EvolvesOn(a.gens, b.gens, c.gens);
    forall x | x in a.active && x !in first + second ensures Undisturbed(a.store, c.store, x) {
      UndisturbedTransitive(a.store, b.store, c.store, x);
    }
  }

  lemma MovedNothing(st: State, predict: seq<Slot> -> Token, eos: set<Token>)
    requires Inv(st, predict, eos)
    ensures Moved(st, st, {})
  {
    hide Undisturbed, RowOk, GenOk;
    forall x | x in st.active ensures Undisturbed(st.store, st.store, x) {
      ActiveRow(st, x, predict, eos);
      Unchanged(st.store, x);
    }
  }

  // A change to one request's record and pages.
  lemma OneMoved(a: State, b: State, id: string)
    requires b.reserved == a.reserved && id in a.gens && id in b.gens && b.gens == a.gens[id := b.gens[id]]
    requires Continues(a.gens[id], b.gens[id])
    requires a.active - {id} <= b.active <= a.active <= a.gens.Keys && a.active <= a.store.tables.Keys
    requires OthersUndisturbed(a.store, b.store, id)
    ensures Moved(a, b, {id})
  {
    hide Undisturbed;
  }

  lemma MovedKeepsStaged(a: State, b: State, ids: set<string>, other: string, ahead: seq<Token>)
    requires Moved(a, b, ids) && other !in ids && Staged(a, other, ahead)
    ensures Staged(b, other, ahead) && b.gens[other] == a.gens[other]
  {
    hide Staged, Undisturbed, Continues;
    StagedFacts(a, other, ahead);
    StagedKept(a, b, other, ahead);
  }

  lemma MovedKeepsReady(a: State, b: State, ids: set<string>, other: string, count: nat)
    requires Moved(a, b, ids) && other !in ids && Ready(a, other, count)
    ensures Ready(b, other, count) && b.gens[other] == a.gens[other]
  {
    hide WriteReady, Undisturbed, Continues;
    ReadyKept(a, b, other, count);
  }

  lemma StagedFacts(st: State, id: string, ahead: seq<Token>)
    requires Staged(st, id, ahead)
    ensures id in st.active && id in st.gens && id in st.store.tables
    ensures st.store.tables[id].length <= |st.gens[id].Tokens()|
  {
  }

  // ---- committing -------------------------------------------------------------------------

  lemma InvIsInvBut(st: State, id: string, predict: seq<Slot> -> Token, eos: set<Token>)
    requires Inv(st, predict, eos)
    ensures InvBut(st, id, predict, eos)
  {
  }

  // Committing `count` tokens of a ready row concerns nobody else.
  lemma CommitIsLocal(st: State, id: string, count: nat, predict: seq<Slot> -> Token, eos: set<Token>)
    requires Inv(st, predict, eos) && Ready(st, id, count)
    ensures var w := st.(store := Committed(st.store, id, st.store.tables[id].length + count));
            InvBut(w, id, predict, eos) && OthersUndisturbed(st.store, w.store, id)
  {
    hide Consistent, RowOk, GenOk, Placed, Undisturbed, AllPrivate;
    var after := Committed(st.store, id, st.store.tables[id].length + count);
    CommitIsConsistent(st.store, id, st.store.tables[id].length + count, predict);
    forall other | other in st.active && other != id ensures RowOk(after, other, st.gens[other]) {
      RowUndisturbed(st.store, after, other, st.gens[other]);
    }
    var w := st.(store := after);
    forall other | other in w.gens ensures Placed(w, other) { PlacedAgain(st, w, other); }
  }

  lemma CommitIsConsistent(s: Store, id: string, length: nat, predict: seq<Slot> -> Token)
    requires Consistent(s, predict) && WriteReady(s, id, length) && s.tables[id].length <= length
    ensures Consistent(Committed(s, id, length), predict)
    ensures OthersUndisturbed(s, Committed(s, id, length), id)
  {
    hide Consistent, Undisturbed;
    CommitKeeps(s, id, length, predict);
  }

  // Between commit and settlement the request's record may change while it stays active.
  lemma RecordIsLocal(st: State, id: string, g: Generation, predict: seq<Slot> -> Token, eos: set<Token>)
    requires InvBut(st, id, predict, eos) && id in st.active && (g.phase.Prefilling? || g.phase.Decoding?)
    ensures InvBut(st.(gens := st.gens[id := g]), id, predict, eos)
  {
    hide Consistent, RowOk, GenOk, Placed;
    var w := st.(gens := st.gens[id := g]);
    forall other | other in w.gens ensures Placed(w, other) {
      if other != id { PlacedAgain(st, w, other); } else { PlacedActive(st, w, id); }
    }
  }

  // A longer run contains its prefixes.
  lemma StoredPrefix(pool: Pool, size: nat, blocks: seq<nat>, tokens: seq<Token>, k: nat)
    requires Stored(pool, size, blocks, KvOf(tokens)) && k <= |tokens|
    ensures Stored(pool, size, blocks, KvOf(tokens[..k]))
  {
    hide KvOf, Stored;
    KvOfPrefix(tokens, k);
    StoredTake(pool, size, blocks, KvOf(tokens), k);
  }

  // ---- emitting tokens --------------------------------------------------------------------

  // Tokens a decoding request may emit: they fit, nothing before the last one ends it, and a
  // greedy request's are the model's choices.
  ghost predicate Emission(g: Generation, emitted: seq<Token>, predict: seq<Slot> -> Token, eos: set<Token>) {
    && emitted != [] && |g.outputs| + |emitted| <= g.maxNew
    && Open(emitted[..|emitted| - 1], g.Ends(eos))
    && (g.greedy ==> Chain(ModelOf(predict), g.prompt, g.outputs + emitted))
  }

  function AfterEmitting(g: Generation, emitted: seq<Token>): Generation
    requires emitted != []
  {
    g.(phase := Decoding, outputs := g.outputs + emitted, pending := Some(emitted[|emitted| - 1]),
       recomputing := false)
  }

  lemma EmissionOk(g: Generation, emitted: seq<Token>, predict: seq<Slot> -> Token, eos: set<Token>)
    requires GenOk(g, predict, eos) && g.Live() && !g.resuming && Emission(g, emitted, predict, eos)
    ensures var h := AfterEmitting(g, emitted); var reason := h.FinishReason(emitted[|emitted| - 1], eos);
            && (reason.None? ==> GenOk(h, predict, eos))
            && (reason.Some? ==> GenOk(h.(phase := Finished, reason := reason.value), predict, eos))
            && (reason.Some? ==> !reason.value.InvalidPrefixEntry?)
            && Continues(g, h)
            && (reason.Some? ==> Continues(g, h.(phase := Finished, reason := reason.value)))
  {
    hide Chain;
    var h := AfterEmitting(g, emitted);
    var last := emitted[|emitted| - 1];
    var before := g.outputs + emitted[..|emitted| - 1];
    assert h.outputs == before + [last] && h.outputs[..|h.outputs| - 1] == before;
    assert Open(before, g.Ends(eos));
  }

  // The row after committing what it emitted.
  lemma EmittedRow(st: State, id: string, emitted: seq<Token>)
    requires id in st.gens && emitted != []
    requires var g := st.gens[id]; g.phase.Decoding? && g.outputs != [] && g.pending == Some(g.outputs[|g.outputs| - 1])
    requires id in st.store.tables && st.store.tables[id].length == |st.gens[id].prompt| + |st.gens[id].outputs| - 1
    requires Staged(st, id, [st.gens[id].pending.value] + emitted[..|emitted| - 1])
    ensures RowOk(Committed(st.store, id, st.store.tables[id].length + |emitted|), id,
                  AfterEmitting(st.gens[id], emitted))
  {
    hide Stored, WriteReady, KvOf;
    var g, h := st.gens[id], AfterEmitting(st.gens[id], emitted);
    var length := st.store.tables[id].length;
    assert Context(st, id) + ([g.pending.value] + emitted[..|emitted| - 1]) == h.Tokens()[..length + |emitted|];
  }

  // ---- the capacity pass ------------------------------------------------------------------

  // One row of a planned batch: how many tokens it is to write.
  datatype Plan = Plan(id: string, count: nat)

  // The plans whose request is still active, in order.
  function StillActive(plans: seq<Plan>, active: set<string>): (r: seq<Plan>)
    ensures Subsequence(r, plans) && forall plan :: plan in r <==> plan in plans && plan.id in active
    ensures |r| <= |plans|
  {
    if plans == [] then []
    else
      var rest := StillActive(plans[..|plans| - 1], active);
      assert plans == plans[..|plans| - 1] + [plans[|plans| - 1]];
      if plans[|plans| - 1].id in active then
        SubsequenceTakes(rest, plans[..|plans| - 1], plans[|plans| - 1]);
        rest + [plans[|plans| - 1]]
      else
        SubsequenceSkips(rest, plans[..|plans| - 1], plans[|plans| - 1]);
        rest
  }

  ghost predicate DistinctRows(plans: seq<Plan>) {
    forall i, j | 0 <= i < j < |plans| :: plans[i].id != plans[j].id
  }

  ghost predicate PlanOk(st: State, plan: Plan) {
    && plan.id in st.active && plan.id in st.gens && plan.count > 0
    && WithinPrompt(st.gens[plan.id], CommittedLength(st.gens[plan.id]) + plan.count)
  }

  ghost predicate PlansOk(st: State, plans: seq<Plan>) {
    DistinctRows(plans) && forall plan | plan in plans :: PlanOk(st, plan)
  }

  // One request's turn in the pass: the active set shrank from `big` to `small`.
  lemma PassStep(viable: seq<Plan>, plans: seq<Plan>, i: nat, big: set<string>, small: set<string>)
    requires i < |plans| && small <= big && StillActive(viable, big) == StillActive(plans[..i], big)
    ensures var next := if plans[i].id in small then viable + [plans[i]] else viable;
            StillActive(next, small) == StillActive(plans[..i + 1], small)
  {
    StillActiveShrinks(viable, big, small);
    StillActiveShrinks(plans[..i], big, small);
    assert plans[..i + 1][..i] == plans[..i];
    assert (viable + [plans[i]])[..|viable|] == viable;
  }

  lemma {:induction false} StillActiveShrinks(plans: seq<Plan>, big: set<string>, small: set<string>)
    requires small <= big
    ensures StillActive(StillActive(plans, big), small) == StillActive(plans, small)
  {
    if plans != [] {
      var last, rest := plans[|plans| - 1], StillActive(plans[..|plans| - 1], big);
      StillActiveShrinks(plans[..|plans| - 1], big, small);
      assert (rest + [last])[..|rest|] == rest;
    }
  }

  // Where the pass stands before its i-th request: the requests it found room for that are
  // still active are exactly the active ones among those it visited, and they are ready.
  ghost predicate Passing(a: State, now: State, plans: seq<Plan>, i: nat, viable: seq<Plan>, epoch: nat)
    requires i <= |plans|
  {
    && Thinned(a, now, epoch) && PlansOk(a, plans) && Bystanders(a, now, plans)
    && StillActive(viable, now.active) == StillActive(plans[..i], now.active)
    && (forall plan | plan in viable :: plan in plans[..i])
    && (forall plan | plan in viable && plan.id in now.active :: Ready(now, plan.id, plan.count))
  }

  // Active requests that no plan mentions keep their rows.
  ghost predicate Bystanders(a: State, now: State, plans: seq<Plan>) {
    forall x | x in now.active && x !in RowIds(plans) :: Undisturbed(a.store, now.store, x)
  }

  lemma StartOfPass(st: State, plans: seq<Plan>, epoch: nat, predict: seq<Slot> -> Token, eos: set<Token>)
    requires Inv(st, predict, eos) && PlansOk(st, plans)
    ensures Passing(st, st, plans, 0, [], epoch)
  {
    hide Undisturbed, RowOk, GenOk;
    ThinnedNothing(st, epoch);
    forall x | x in st.active ensures Undisturbed(st.store, st.store, x) {
      ActiveRow(st, x, predict, eos);
      Unchanged(st.store, x);
    }
  }

  lemma SkippedTurn(a: State, now: State, plans: seq<Plan>, i: nat, viable: seq<Plan>, epoch: nat)
    requires i < |plans| && Passing(a, now, plans, i, viable, epoch) && plans[i].id !in now.active
    ensures Passing(a, now, plans, i + 1, viable, epoch)
  {
    hide Thinned, PlansOk, Ready, StillActive, Bystanders;
    PassStep(viable, plans, i, now.active, now.active);
    assert plans[..i + 1] == plans[..i] + [plans[i]];
  }

  lemma TakenTurn(a: State, turn: State, now: State, plans: seq<Plan>, i: nat, viable: seq<Plan>, epoch: nat,
                  later: nat)
    requires i < |plans| && Passing(a, turn, plans, i, viable, epoch)
    requires Thinned(turn, now, later) && (later == epoch || turn.active == {})
    requires forall x | x in now.active && x != plans[i].id :: Undisturbed(turn.store, now.store, x)
    requires plans[i].id in now.active ==> Ready(now, plans[i].id, plans[i].count)
    ensures Passing(a, now, plans, i + 1, if plans[i].id in now.active then viable + [plans[i]] else viable, epoch)
  {
    hide Thinned, Ready, Undisturbed, PlanOk, StillActive;
    ThinnedTwice(a, turn, now, epoch, later);
    assert now.active <= turn.active by { ThinnedFacts(turn, now, later); }
    PassStep(viable, plans, i, turn.active, now.active);
    assert plans[..i + 1] == plans[..i] + [plans[i]];
    forall plan | plan in viable ensures plan.id != plans[i].id {
      var j :| 0 <= j < i && plans[..i][j] == plan;
    }
    ReadyThroughTurn(turn, now, viable, plans[i].id, later);
    forall x | x in now.active && x !in RowIds(plans) ensures Undisturbed(a.store, now.store, x) {
      assert plans[i] in plans;
      UndisturbedTransitive(a.store, turn.store, now.store, x);
    }
  }

  lemma PassTicked(a: State, turn: State, now: State, plans: seq<Plan>, i: nat, viable: seq<Plan>, epoch: nat,
                   middle: nat, later: nat, predict: seq<Slot> -> Token, eos: set<Token>)
    requires Inv(a, predict, eos) && Inv(turn, predict, eos) && i < |plans| && Passing(a, turn, plans, i, viable, epoch)
    requires Thinned(turn, now, middle) && Ticked(a, epoch, turn, middle) && Ticked(turn, middle, now, later)
    ensures Ticked(a, epoch, now, later)
  {
    hide Inv, Ticked, Thinned, Evolves, PlansOk, Bystanders, StillActive, Ready;
    BatchThinned(a, turn, epoch, predict, eos);
    BatchThinned(turn, now, middle, predict, eos);
    ThinnedFrame(a, turn, epoch);
    TickedOn(a, epoch, turn, middle, now, later);
  }

  lemma NotTicked(st: State, epoch: nat)
    ensures Ticked(st, epoch, st, epoch)
  {
  }

  lemma SameTick(a: State, b: State, epoch: nat)
    requires b.active == a.active
    ensures Ticked(a, epoch, b, epoch)
  {
  }

  lemma MovedTicked(a: State, first: nat, b: State, second: nat, c: State, third: nat, ids: set<string>,
                    more: set<string>)
    requires Moved(a, b, ids) && Moved(b, c, more) && Ticked(a, first, b, second) && Ticked(b, second, c, third)
    ensures Ticked(a, first, c, third)
  {
    hide Undisturbed, Ticked, Evolves;
    TickedOn(a, first, b, second, c, third);
  }

  lemma BatchTicked(a: State, first: nat, middle: State, second: nat, b: State, third: nat, ids: set<string>,
                    predict: seq<Slot> -> Token, eos: set<Token>)
    requires Inv(a, predict, eos) && Thinned(a, middle, first) && Moved(middle, b, ids)
    requires Ticked(a, first, middle, second) && Ticked(middle, second, b, third)
    ensures Ticked(a, first, b, third)
  {
    hide Inv, Undisturbed, Ticked, Evolves, Thinned;
    BatchThinned(a, middle, first, predict, eos);
    ThinnedFrame(a, middle, first);
    TickedOn(a, first, middle, second, b, third);
  }

  lemma ThinnedFacts(a: State, b: State, epoch: nat)
    requires Thinned(a, b, epoch)
    ensures b.active <= a.active && forall x | x in b.active :: x in a.gens && x in b.gens && b.gens[x] == a.gens[x]
  {
  }

  lemma EndOfPass(a: State, now: State, plans: seq<Plan>, viable: seq<Plan>, epoch: nat)
    requires Passing(a, now, plans, |plans|, viable, epoch)
    ensures Thinned(a, now, epoch) && StillActive(viable, now.active) == StillActive(plans, now.active)
    ensures Bystanders(a, now, plans)
    ensures forall plan | plan in StillActive(plans, now.active) :: Ready(now, plan.id, plan.count)
  {
    hide Thinned, Ready, PlansOk, Bystanders;
    assert plans[..|plans|] == plans;
    forall plan | plan in StillActive(plans, now.active) ensures Ready(now, plan.id, plan.count) {
      assert plan in StillActive(viable, now.active);
    }
  }

  // How the oldest request of all fares in the pass: until its turn nothing changes for it, and
  // at its turn it gets its room exactly if it could get it alone.
  ghost predicate OldestPassing(a: State, now: State, plans: seq<Plan>, i: nat)
    requires i <= |plans|
  {
    && Unhindered(a, now, RowIds(plans[..i]))
    && (forall x | x in now.active && x !in RowIds(plans[..i]) :: Undisturbed(a.store, now.store, x))
    && (forall x | Oldest(a, x) && x !in RowIds(plans[..i]) :: x in now.active)
    && forall x, plan | Oldest(a, x) && plan in plans[..i] && plan.id == x :: x in now.active <==> WouldServe(a, plan)
  }

  ghost predicate WouldServe(st: State, plan: Plan) {
    plan.id in st.gens && Servable(st, plan.id, CommittedLength(st.gens[plan.id]) + plan.count)
  }

  ghost predicate OldestServed(a: State, now: State, plans: seq<Plan>) {
    && (forall x | Oldest(a, x) && x !in RowIds(plans) :: x in now.active)
    && forall x, plan | Oldest(a, x) && plan in plans && plan.id == x :: x in now.active <==> WouldServe(a, plan)
  }

  lemma StartOfOldest(st: State, plans: seq<Plan>, predict: seq<Slot> -> Token, eos: set<Token>)
    requires Inv(st, predict, eos)
    ensures OldestPassing(st, st, plans, 0)
  {
    hide Undisturbed, RowOk, GenOk, Unhindered;
    UnhinderedSelf(st, RowIds(plans[..0]));
    forall x | x in st.active ensures Undisturbed(st.store, st.store, x) {
      ActiveRow(st, x, predict, eos);
      Unchanged(st.store, x);
    }
  }

  lemma EndOfOldest(a: State, now: State, plans: seq<Plan>)
    requires OldestPassing(a, now, plans, |plans|)
    ensures OldestServed(a, now, plans) && Unhindered(a, now, RowIds(plans))
  {
    hide Unhindered, Undisturbed, Oldest, WouldServe;
    assert plans[..|plans|] == plans;
  }

  lemma SkippedOldest(a: State, now: State, plans: seq<Plan>, i: nat, viable: seq<Plan>, epoch: nat)
    requires i < |plans| && Passing(a, now, plans, i, viable, epoch) && plans[i].id !in now.active
    requires OldestPassing(a, now, plans, i)
    ensures OldestPassing(a, now, plans, i + 1)
  {
    hide Undisturbed, Oldest, WouldServe, Thinned, Bystanders, Ready, StillActive;
    RowIdsGrow(plans, i);
    assert plans[..i + 1] == plans[..i] + [plans[i]];
    OnceEach(plans, i);
  }

  lemma OnceEach(plans: seq<Plan>, i: nat)
    requires DistinctRows(plans) && i < |plans|
    ensures plans[i].id !in RowIds(plans[..i])
  {
  }

  lemma OldestTurn(a: State, turn: State, now: State, plans: seq<Plan>, i: nat, viable: seq<Plan>, epoch: nat,
                   later: nat, predict: seq<Slot> -> Token, eos: set<Token>)
    requires Inv(a, predict, eos) && Inv(turn, predict, eos) && i < |plans| && Passing(a, turn, plans, i, viable, epoch)
    requires OldestPassing(a, turn, plans, i) && plans[i].id in turn.active && plans[i].id in turn.gens
    requires Thinned(turn, now, later) && Unhindered(turn, now, {plans[i].id})
    requires forall x | x in now.active && x != plans[i].id :: Undisturbed(turn.store, now.store, x)
    requires forall x | Oldest(turn, x) && x != plans[i].id :: x in now.active
    requires Oldest(turn, plans[i].id) ==>
               (plans[i].id in now.active
                <==> Servable(turn, plans[i].id, CommittedLength(turn.gens[plans[i].id]) + plans[i].count))
    ensures OldestPassing(a, now, plans, i + 1)
  {
    hide Undisturbed, Oldest, WouldServe, Inv, Unhindered, Servable, Ready, StillActive, Bystanders, Thinned, RowIds,
         PlanOk;
    var id := plans[i].id;
    RowIdsGrow(plans, i);
    assert plans[..i + 1] == plans[..i] + [plans[i]];
    OnceEach(plans, i);
    TurnFrame(a, turn, now, epoch, later);
    UnhinderedTwice(a, turn, now, RowIds(plans[..i]), {id});
    forall x | x in now.active && x !in RowIds(plans[..i + 1]) ensures Undisturbed(a.store, now.store, x) {
      UndisturbedTransitive(a.store, turn.store, now.store, x);
    }
    forall x | Oldest(a, x) && x in turn.active ensures Oldest(turn, x) { StillOldest(a, turn, x); }
    if Oldest(a, id) {
      PlannedApart(a, plans, i, predict, eos);
      FutureAtTurn(a, turn, plans, i, predict, eos);
    }
    InRowIds(plans, i);
    forall x, plan | Oldest(a, x) && plan in plans[..i] && plan.id == x
      ensures x in now.active <==> WouldServe(a, plan)
    {
      if x in turn.active { assert x != id && x in now.active; }
    }
  }

  lemma InRowIds(plans: seq<Plan>, i: nat)
    requires i <= |plans|
    ensures forall plan | plan in plans[..i] :: plan.id in RowIds(plans[..i])
  {
  }

  lemma TurnFrame(a: State, turn: State, now: State, epoch: nat, later: nat)
    requires Thinned(a, turn, epoch) && Thinned(turn, now, later)
    ensures turn.active <= a.active && now.active <= turn.active && turn.reserved == a.reserved
    ensures now.reserved == turn.reserved
    ensures forall x | x in turn.active :: x in a.gens && x in turn.gens && turn.gens[x] == a.gens[x]
  {
  }

  lemma PlannedApart(st: State, plans: seq<Plan>, i: nat, predict: seq<Slot> -> Token, eos: set<Token>)
    requires Inv(st, predict, eos) && PlansOk(st, plans) && i <= |plans|
    ensures st.reserved !! RowIds(plans[..i]) && Shaped(st.store)
  {
    hide GenOk, RowOk, EntryHolds, CatalogHolds, Exclusive;
    forall x | x in RowIds(plans[..i]) ensures x !in st.reserved {
      var plan :| plan in plans[..i] && plan.id == x;
      assert PlanOk(st, plan);
    }
  }

  lemma StillOldest(a: State, b: State, id: string)
    requires Oldest(a, id) && id in b.active && b.active <= a.active
    requires forall x | x in b.active :: x in a.gens && x in b.gens && b.gens[x] == a.gens[x]
    ensures Oldest(b, id)
  {
    hide Before;
  }

  // At its turn the oldest request has the prospects it had at the start.
  lemma FutureAtTurn(a: State, turn: State, plans: seq<Plan>, i: nat, predict: seq<Slot> -> Token, eos: set<Token>)
    requires Inv(turn, predict, eos) && i < |plans| && OldestPassing(a, turn, plans, i) && turn.reserved == a.reserved
    requires plans[i].id in turn.active && plans[i].id in a.gens && plans[i].id in turn.gens
    requires turn.gens[plans[i].id] == a.gens[plans[i].id]
    requires plans[i].id !in RowIds(plans[..i]) && a.reserved !! RowIds(plans[..i]) && Shaped(a.store)
    ensures WouldServe(a, plans[i])
            <==> Servable(turn, plans[i].id, CommittedLength(turn.gens[plans[i].id]) + plans[i].count)
  {
    hide Unhindered, Servable, Oldest, Inv, Shaped;
    var id := plans[i].id;
    UndisturbedFacts(a.store, turn.store, id);
    SameFuture(a, turn, id, RowIds(plans[..i]), CommittedLength(turn.gens[id]) + plans[i].count);
  }

  lemma PlanSurvives(a: State, b: State, plans: seq<Plan>, i: nat, viable: seq<Plan>, epoch: nat)
    requires i < |plans| && Passing(a, b, plans, i, viable, epoch) && plans[i].id in b.active
    ensures PlanOk(b, plans[i])
  {
    assert plans[i] in plans;
    assert PlanOk(a, plans[i]);
  }

  lemma ReadyNow(st: State, id: string, count: nat, predict: seq<Slot> -> Token, eos: set<Token>)
    requires Inv(st, predict, eos) && id in st.active && id in st.gens
    requires WriteReady(st.store, id, CommittedLength(st.gens[id]) + count)
    ensures Ready(st, id, count)
  {
    hide Consistent;
    ActiveRow(st, id, predict, eos);
  }

  // Rows that already found room keep it while another request makes room.
  lemma ReadyThroughTurn(a: State, b: State, viable: seq<Plan>, id: string, epoch: nat)
    requires Thinned(a, b, epoch)
    requires forall x | x in b.active && x != id :: Undisturbed(a.store, b.store, x)
    requires forall plan | plan in viable :: plan.id != id
    requires forall plan | plan in viable && plan.id in a.active :: Ready(a, plan.id, plan.count)
    ensures forall plan | plan in viable && plan.id in b.active :: Ready(b, plan.id, plan.count)
  {
    hide Undisturbed, Ready;
    forall plan | plan in viable && plan.id in b.active ensures Ready(b, plan.id, plan.count) {
      ReadyKept(a, b, plan.id, plan.count);
    }
  }

  lemma FailingOk(st: State, id: string, predict: seq<Slot> -> Token, eos: set<Token>)
    requires Inv(st, predict, eos) && id in st.active
    ensures InvBut(st, id, predict, eos) && id in st.gens
    ensures GenOk(st.gens[id].(phase := Failed, reason := KvPoolExhausted), predict, eos)
  {
    hide Consistent;
    ActiveRow(st, id, predict, eos);
    InvIsInvBut(st, id, predict, eos);
  }

  // ---- forward passes ---------------------------------------------------------------------

  // A table whose pages hold the K/V of `context` and whose writable blocks are its own.
  ghost predicate Holding(s: Store, id: string, context: seq<Token>) {
    && id in s.tables && s.size > 0 && AllPrivate(s, id)
    && s.tables[id].length <= |context|
    && Stored(s.pool, s.size, s.tables[id].blocks, KvOf(context))
  }

  lemma KvOfStep(context: seq<Token>, token: Token)
    ensures KvOf(context + [token]) == KvOf(context) + [Cell(KvOf(context), token)]
    ensures KvOf(context)[..|context|] == KvOf(context)
  {
    assert (context + [token])[..|context|] == context;
  }

  lemma WriteTarget(s: Store, predict: seq<Slot> -> Token, id: string, position: nat)
    requires Consistent(s, predict) && id in s.tables
    requires s.tables[id].length <= position < s.tables[id].Capacity(s.size)
    ensures s.size > 0 && position / s.size < |s.tables[id].blocks| && position % s.size < s.size
    ensures s.tables[id].blocks[position / s.size] < |s.pool|
    ensures |s.pool[s.tables[id].blocks[position / s.size]]| == s.size
  {
    TablePagesInPool(s, id);
    DivBounds(position, s.size);
    MulLess(position / s.size, |s.tables[id].blocks|, s.size);
    assert s.tables[id].blocks[position / s.size] in s.tables[id].blocks;
  }

  // Writing the next slot of a private block: consistent, local, and one vector longer.
  lemma WriteKeepsAll(s: Store, w: Store, id: string, position: nat, v: Slot, values: seq<Slot>,
                      predict: seq<Slot> -> Token)
    requires Consistent(s, predict) && id in s.tables && AllPrivate(s, id) && s.size > 0
    requires s.tables[id].length <= position && position / s.size < |s.tables[id].blocks|
    requires s.tables[id].blocks[position / s.size] < |s.pool|
    requires position % s.size < |s.pool[s.tables[id].blocks[position / s.size]]|
    requires w == s.(pool := SetSlot(s.pool, s.tables[id].blocks[position / s.size], position % s.size, v))
    requires |values| == position && Stored(s.pool, s.size, s.tables[id].blocks, values)
    ensures Consistent(w, predict) && AllPrivate(w, id) && OthersUndisturbed(s, w, id)
    ensures Stored(w.pool, w.size, w.tables[id].blocks, values + [v])
  {
    hide Exclusive, EntryHolds, CatalogHolds, CacheAlive, Undisturbed, AllPrivate, Stored, SetSlot;
    DivBounds(position, s.size);
    TablePagesInPool(s, id);
    WriteKeeps(s, id, position / s.size, position % s.size, v, predict);
    WriteAppends(s.pool, s.size, s.tables[id].blocks, values, position / s.size, position % s.size, v);
  }

  lemma StartOfForward(st: State, id: string, count: nat, predict: seq<Slot> -> Token, eos: set<Token>)
    requires Inv(st, predict, eos) && Ready(st, id, count) && count > 0
    ensures AllPrivate(st.store, id)
    ensures Stored(st.store.pool, st.store.size, st.store.tables[id].blocks, KvOf(Context(st, id) + []))
    ensures st.store.tables[id].length + count <= st.store.tables[id].Capacity(st.store.size)
    ensures OthersUndisturbed(st.store, st.store, id)
  {
    hide Stored, KvOf, Consistent, Undisturbed, AllPrivate;
    ActiveRow(st, id, predict, eos);
    ConsistentUnchanged(st.store, predict, id);
    assert Context(st, id) + [] == Context(st, id);
  }

  lemma ForwardKeepsRow(st: State, after: Store, id: string, tokens: seq<Token>)
    requires Ready(st, id, |tokens|) && RowOk(st.store, id, st.gens[id])
    requires after == st.store.(pool := after.pool)
    requires Stored(after.pool, after.size, after.tables[id].blocks, KvOf(Context(st, id) + tokens))
    ensures RowOk(after, id, st.gens[id])
  {
    hide Stored, KvOf;
    assert (Context(st, id) + tokens)[..st.store.tables[id].length] == Context(st, id);
    StoredPrefix(after.pool, after.size, after.tables[id].blocks, Context(st, id) + tokens, st.store.tables[id].length);
  }

  // ---- decoding rows ----------------------------------------------------------------------

  // The inputs of a row that emits these tokens: the pending one, then all but the last.
  function Inputs(g: Generation, emitted: seq<Token>): seq<Token>
    requires g.pending.Some? && emitted != []
  {
    [g.pending.value] + emitted[..|emitted| - 1]
  }

  // A decoding row whose forward pass is done and whose emitted tokens are decided.
  ghost predicate EmitReady(st: State, id: string, emitted: seq<Token>, predict: seq<Slot> -> Token, eos: set<Token>) {
    && id in st.gens && st.gens[id].phase.Decoding? && st.gens[id].pending.Some?
    && Emission(st.gens[id], emitted, predict, eos)
    && Staged(st, id, Inputs(st.gens[id], emitted))
  }

  lemma MovedKeepsEmitReady(a: State, b: State, ids: set<string>, other: string, emitted: seq<Token>,
                            predict: seq<Slot> -> Token, eos: set<Token>)
    requires Moved(a, b, ids) && other !in ids && EmitReady(a, other, emitted, predict, eos)
    ensures EmitReady(b, other, emitted, predict, eos)
  {
    hide Moved, Staged, Emission;
    EmissionFacts(a.gens[other], emitted, predict, eos);
    MovedKeepsStaged(a, b, ids, other, Inputs(a.gens[other], emitted));
    StagedFacts(b, other, Inputs(a.gens[other], emitted));
  }

  lemma StagedPrefix(st: State, id: string, ahead: seq<Token>, k: nat)
    requires Staged(st, id, ahead) && k <= |ahead|
    ensures Staged(st, id, ahead[..k])
  {
    hide Stored, KvOf;
    var whole := Context(st, id) + ahead;
    assert whole[..|Context(st, id)| + k] == Context(st, id) + ahead[..k];
    StoredPrefix(st.store.pool, st.store.size, st.store.tables[id].blocks, whole, |Context(st, id)| + k);
  }

  // Finished if its last token ends it, otherwise as it is.
  function Settled(g: Generation, last: Token, eos: set<Token>): Generation {
    var reason := g.FinishReason(last, eos);
    if reason.None? then g else g.(phase := Finished, reason := reason.value)
  }

  // What a request becomes when these tokens are committed.
  function Emitted(g: Generation, emitted: seq<Token>, eos: set<Token>): Generation
    requires emitted != []
  {
    Settled(AfterEmitting(g, emitted), emitted[|emitted| - 1], eos)
  }

  lemma EmitReadyFacts(st: State, id: string, emitted: seq<Token>, predict: seq<Slot> -> Token, eos: set<Token>)
    requires Inv(st, predict, eos) && EmitReady(st, id, emitted, predict, eos)
    ensures id in st.active && id in st.store.tables && emitted != []
    ensures Ready(st, id, |emitted|)
    ensures var g := st.gens[id];
            && Continues(g, Emitted(g, emitted, eos)) && GenOk(Emitted(g, emitted, eos), predict, eos)
            && RowOk(Committed(st.store, id, st.store.tables[id].length + |emitted|), id, AfterEmitting(g, emitted))
    ensures st.active <= st.gens.Keys && st.active <= st.store.tables.Keys
  {
    hide Consistent, RowOk, GenOk, Emission, WriteReady, Stored;
    ActiveRow(st, id, predict, eos);
    DecodingFacts(st.gens[id], predict, eos);
    EmissionOk(st.gens[id], emitted, predict, eos);
    EmissionFacts(st.gens[id], emitted, predict, eos);
    RowLength(st, id);
    EmittedRow(st, id, emitted);
  }

  lemma DecodingFacts(g: Generation, predict: seq<Slot> -> Token, eos: set<Token>)
    requires GenOk(g, predict, eos) && g.phase.Decoding?
    ensures g.Live() && !g.resuming && g.outputs != [] && g.pending == Some(g.outputs[|g.outputs| - 1])
    ensures |g.outputs| < g.maxNew && Open(g.outputs, g.Ends(eos))
    ensures g.greedy ==> Chain(ModelOf(predict), g.prompt, g.outputs)
  {
  }

  lemma EmissionFacts(g: Generation, emitted: seq<Token>, predict: seq<Slot> -> Token, eos: set<Token>)
    requires Emission(g, emitted, predict, eos)
    ensures emitted != []
  {
  }

  lemma RowLength(st: State, id: string)
    requires id in st.gens && st.gens[id].phase.Decoding? && RowOk(st.store, id, st.gens[id])
    ensures id in st.store.tables && st.store.tables[id].length == |st.gens[id].prompt| + |st.gens[id].outputs| - 1
  {
  }

  // ---- committing a batch -----------------------------------------------------------------

  predicate FullyPrefilled(g: Generation) {
    g.phase.Prefilling? && g.prefilled == |g.PrefillIds()|
  }

  // What a fully prefilled request becomes.
  function Completed(g: Generation, predicted: Option<Token>, eos: set<Token>): Generation {
    if g.resuming && g.outputs != [] then
      g.(phase := Decoding, pending := Some(g.outputs[|g.outputs| - 1]), resuming := false, recomputing := false,
         prefilled := |g.prompt|)
    else if predicted.None? then g.(phase := Failed, reason := InvalidPrefixEntry)
    else Emitted(g, [predicted.value], eos)
  }

  // A row's outcome. A decoding row emits tokens and may already know why it ends. A
  // prefilling row fills in a chunk of its history, `token` being sampled after it; with
  // `replay` it goes on to rebuild its generated history token by token.
  datatype Outcome =
    | Emits(id: string, emitted: seq<Token>, planned: Option<Reason>)
    | Fills(id: string, tokens: seq<Token>, token: Token, replay: bool)

  ghost predicate DistinctOutcomes(work: seq<Outcome>) {
    forall i, j | 0 <= i < j < |work| :: work[i].id != work[j].id
  }

  ghost function Ids(work: seq<Outcome>): set<string> {
    set w | w in work :: w.id
  }

  // A prefilling row whose chunk is written and whose prediction is known.
  ghost predicate FillReady(st: State, id: string, tokens: seq<Token>, token: Token, replay: bool,
                            predict: seq<Slot> -> Token)
  {
    && id in st.gens && st.gens[id].phase.Prefilling? && tokens != []
    && var g := st.gens[id];
    && g.prefilled + |tokens| <= |g.PrefillIds()|
    && tokens == g.PrefillIds()[g.prefilled..g.prefilled + |tokens|]
    && Staged(st, id, tokens)
    && (replay ==> g.prefilled + |tokens| == |g.prompt| && Ready(st, id, |g.PrefillIds()| - g.prefilled))
    && (g.prefilled + |tokens| == |g.PrefillIds()| && !g.resuming && g.greedy ==> token == predict(KvOf(g.prompt)))
  }

  ghost predicate OutcomeReady(st: State, w: Outcome, predict: seq<Slot> -> Token, eos: set<Token>) {
    match w
    case Emits(id, emitted, planned) =>
      && EmitReady(st, id, emitted, predict, eos) && emitted != []
      && (planned.Some? ==> planned == AfterEmitting(st.gens[id], emitted).FinishReason(emitted[|emitted| - 1], eos))
    case Fills(id, tokens, token, replay) => FillReady(st, id, tokens, token, replay, predict)
  }

  function AfterFilling(g: Generation, tokens: seq<Token>, replay: bool): Generation {
    g.(prefilled := if replay then |g.PrefillIds()| else g.prefilled + |tokens|)
  }

  // What the outcome makes of the request.
  function Result(g: Generation, w: Outcome, eos: set<Token>): Generation {
    match w
    case Emits(_, emitted, _) => if emitted == [] then g else Emitted(g, emitted, eos)
    case Fills(_, tokens, token, replay) =>
      var h := AfterFilling(g, tokens, replay);
      if FullyPrefilled(h) then Completed(h, Some(token), eos) else h
  }

  ghost predicate OutcomeDone(a: State, b: State, w: Outcome, eos: set<Token>) {
    w.id in a.gens && w.id in b.gens && b.gens[w.id] == Result(a.gens[w.id], w, eos)
  }

  // Where the commit loop stands before its i-th row.
  ghost predicate Committing(a: State, now: State, work: seq<Outcome>, i: nat, predict: seq<Slot> -> Token,
                             eos: set<Token>)
    requires i <= |work|
  {
    && Moved(a, now, Ids(work[..i]))
    && (forall j | i <= j < |work| :: OutcomeReady(now, work[j], predict, eos))
    && (forall j | 0 <= j < i :: OutcomeDone(a, now, work[j], eos))
  }

  lemma IdsGrow(work: seq<Outcome>, i: nat)
    requires i < |work| && DistinctOutcomes(work)
    ensures Ids(work[..i + 1]) == Ids(work[..i]) + {work[i].id}
    ensures work[i].id !in Ids(work[..i])
    ensures forall j | 0 <= j < |work| && j != i :: work[j].id != work[i].id
  {
    assert work[..i + 1] == work[..i] + [work[i]];
  }

  lemma StartCommitting(st: State, work: seq<Outcome>, predict: seq<Slot> -> Token, eos: set<Token>)
    requires Inv(st, predict, eos) && forall w | w in work :: OutcomeReady(st, w, predict, eos)
    ensures Committing(st, st, work, 0, predict, eos)
  {
    hide Inv, OutcomeReady;
    MovedNothing(st, predict, eos);
    assert Ids(work[..0]) == {};
  }

  lemma RowCommitted(a: State, turn: State, now: State, work: seq<Outcome>, i: nat, predict: seq<Slot> -> Token,
                     eos: set<Token>)
    requires i < |work| && DistinctOutcomes(work) && Committing(a, turn, work, i, predict, eos)
    requires Moved(turn, now, {work[i].id}) && OutcomeDone(turn, now, work[i], eos)
    ensures Committing(a, now, work, i + 1, predict, eos)
  {
    hide OutcomeReady, Undisturbed, Continues, Result, DistinctOutcomes;
    IdsGrow(work, i);
    MovedOn(a, turn, now, Ids(work[..i]), {work[i].id});
    forall j | i < j < |work| ensures OutcomeReady(now, work[j], predict, eos) {
      OutcomeKept(turn, now, {work[i].id}, work[j], predict, eos);
    }
  }

  lemma OutcomeKept(a: State, b: State, ids: set<string>, w: Outcome, predict: seq<Slot> -> Token, eos: set<Token>)
    requires Moved(a, b, ids) && w.id !in ids && OutcomeReady(a, w, predict, eos)
    ensures OutcomeReady(b, w, predict, eos)
  {
    hide Staged, Ready, Emission, Undisturbed, Continues, KvOf;
    match w
    case Emits(id, emitted, _) => MovedKeepsEmitReady(a, b, ids, id, emitted, predict, eos);
    case Fills(id, tokens, _, replay) =>
      var g := a.gens[id];
      MovedKeepsStaged(a, b, ids, id, tokens);
      if replay { MovedKeepsReady(a, b, ids, id, |g.PrefillIds()| - g.prefilled); }
  }

  lemma ReadyIsConsistent(st: State, id: string, count: nat, predict: seq<Slot> -> Token, eos: set<Token>)
    requires Inv(st, predict, eos) && Ready(st, id, count)
    ensures Consistent(st.store, predict) && WriteReady(st.store, id, st.store.tables[id].length + count)
  {
  }

  // The settled record is fine whichever way the last token decides.
  lemma SettledOk(g: Generation, emitted: seq<Token>, predict: seq<Slot> -> Token, eos: set<Token>)
    requires emitted != [] && GenOk(Emitted(g, emitted, eos), predict, eos)
    ensures var h := AfterEmitting(g, emitted); var reason := h.FinishReason(emitted[|emitted| - 1], eos);
            && (reason.None? ==> GenOk(h, predict, eos))
            && (reason.Some? ==> GenOk(h.(phase := Finished, reason := reason.value), predict, eos))
  {
  }

  // ---- forward passes of a batch ----------------------------------------------------------

  // A row that has room for what it is to write.
  ghost predicate RowReady(st: State, plan: Plan) {
    && plan.count > 0 && Ready(st, plan.id, plan.count)
    && var g := st.gens[plan.id];
    && (g.phase.Decoding? || (g.phase.Prefilling? && g.prefilled + plan.count <= |g.PrefillIds()|))
  }

  // Where the forward loop stands before its i-th row: earlier rows are decided, later ones
  // still have their room.
  ghost predicate Staging(a: State, now: State, rows: seq<Plan>, i: nat, work: seq<Outcome>,
                          predict: seq<Slot> -> Token, eos: set<Token>)
    requires i <= |rows|
  {
    && Moved(a, now, RowIds(rows[..i])) && now.gens == a.gens && now.active == a.active
    && |work| == i
    && (forall j | 0 <= j < i :: work[j].id == rows[j].id && OutcomeReady(now, work[j], predict, eos))
    && (forall j | i <= j < |rows| :: RowReady(now, rows[j]))
  }

  ghost function RowIds(rows: seq<Plan>): set<string> {
    set plan | plan in rows :: plan.id
  }

  lemma RowIdsGrow(rows: seq<Plan>, i: nat)
    requires i < |rows|
    ensures RowIds(rows[..i + 1]) == RowIds(rows[..i]) + {rows[i].id}
  {
    assert rows[..i + 1] == rows[..i] + [rows[i]];
  }

  lemma StartStaging(st: State, rows: seq<Plan>, predict: seq<Slot> -> Token, eos: set<Token>)
    requires Inv(st, predict, eos) && forall plan | plan in rows :: RowReady(st, plan)
    ensures Staging(st, st, rows, 0, [], predict, eos)
  {
    hide Inv, RowReady;
    MovedNothing(st, predict, eos);
    assert RowIds(rows[..0]) == {};
  }

  lemma RowStaged(a: State, turn: State, now: State, rows: seq<Plan>, i: nat, work: seq<Outcome>, w: Outcome,
                  predict: seq<Slot> -> Token, eos: set<Token>)
    requires i < |rows| && DistinctRows(rows) && Staging(a, turn, rows, i, work, predict, eos)
    requires Moved(turn, now, {rows[i].id}) && now.gens == turn.gens && now.active == turn.active
    requires w.id == rows[i].id && OutcomeReady(now, w, predict, eos)
    ensures Staging(a, now, rows, i + 1, work + [w], predict, eos)
  {
    hide OutcomeReady, Moved, RowReady;
    RowIdsGrow(rows, i);
    MovedOn(a, turn, now, RowIds(rows[..i]), {rows[i].id});
    forall j | 0 <= j < i ensures OutcomeReady(now, work[j], predict, eos) {
      OutcomeKept(turn, now, {rows[i].id}, work[j], predict, eos);
    }
    forall j | i < j < |rows| ensures RowReady(now, rows[j]) {
      RowReadyKept(turn, now, {rows[i].id}, rows[j]);
    }
  }

  lemma RowReadyKept(a: State, b: State, ids: set<string>, plan: Plan)
    requires Moved(a, b, ids) && plan.id !in ids && RowReady(a, plan)
    ensures RowReady(b, plan)
  {
    hide Moved, WriteReady;
    MovedKeepsReady(a, b, ids, plan.id, plan.count);
  }

  lemma EndStaging(a: State, now: State, rows: seq<Plan>, work: seq<Outcome>, predict: seq<Slot> -> Token,
                   eos: set<Token>)
    requires DistinctRows(rows) && Staging(a, now, rows, |rows|, work, predict, eos)
    ensures DistinctOutcomes(work) && Ids(work) == RowIds(rows) && Moved(a, now, RowIds(rows)) && now.gens == a.gens
    ensures forall w | w in work :: OutcomeReady(now, w, predict, eos)
    ensures |work| == |rows|
  {
    hide Moved, OutcomeReady;
    assert rows[..|rows|] == rows;
    forall id ensures id in Ids(work) <==> id in RowIds(rows) {
      if id in Ids(work) {
        var j :| 0 <= j < |work| && work[j].id == id;
        assert rows[j] in rows;
      }
      if id in RowIds(rows) {
        var j :| 0 <= j < |rows| && rows[j].id == id;
        assert work[j] in work;
      }
    }
  }

  // A forward pass moves nobody but its row.
  lemma ForwardMoves(a: State, b: State, id: string, predict: seq<Slot> -> Token, eos: set<Token>)
    requires Inv(a, predict, eos) && id in a.active && b == a.(store := b.store)
    requires OthersUndisturbed(a.store, b.store, id)
    ensures Moved(a, b, {id})
  {
    hide Consistent, RowOk, GenOk;
    ActiveRow(a, id, predict, eos);
    OneMoved(a, b, id);
  }

  // A greedy row's next token is the model's; any other row's is the sampler's choice.
  lemma NextTokenReady(st: State, id: string, token: Token, predict: seq<Slot> -> Token, eos: set<Token>)
    requires Inv(st, predict, eos) && id in st.active && id in st.gens && st.gens[id].phase.Decoding?
    requires st.gens[id].pending.Some? && Staged(st, id, [st.gens[id].pending.value])
    requires st.gens[id].greedy ==> token == predict(KvOf(Context(st, id) + [st.gens[id].pending.value]))
    ensures OutcomeReady(st, Emits(id, [token], None), predict, eos)
  {
    hide Consistent, Staged, RowOk, KvOf, Chain;
    var g := st.gens[id];
    ActiveRow(st, id, predict, eos);
    DecodingFacts(g, predict, eos);
    PendingContext(st, id);
    if g.greedy { ChainGrows(ModelOf(predict), g.prompt, g.outputs, token); }
    assert Inputs(g, [token]) == [g.pending.value];
  }

  // The committed tokens and the pending one are everything the request has so far.
  lemma PendingContext(st: State, id: string)
    requires id in st.gens && st.gens[id].phase.Decoding? && RowOk(st.store, id, st.gens[id])
    requires st.gens[id].outputs != [] && st.gens[id].pending == Some(st.gens[id].outputs[|st.gens[id].outputs| - 1])
    ensures id in st.store.tables && st.store.tables[id].length <= |st.gens[id].Tokens()|
    ensures Context(st, id) + [st.gens[id].pending.value] == st.gens[id].prompt + st.gens[id].outputs
  {
    RowLength(st, id);
  }

  // What verification of proposals needs to know: the forward pass gave the model's choice
  // after every proposal prefix.
  lemma PredictionsVerify(st: State, id: string, proposals: seq<Token>, predictions: seq<Token>,
                          predict: seq<Slot> -> Token, eos: set<Token>)
    requires Inv(st, predict, eos) && id in st.active && id in st.gens && st.gens[id].phase.Decoding?
    requires st.gens[id].pending.Some? && id in st.store.tables && st.store.tables[id].length <= |st.gens[id].Tokens()|
    requires |predictions| == |proposals| + 1
    requires forall i | 0 <= i < |predictions| ::
               predictions[i] == predict(KvOf(Context(st, id) + ([st.gens[id].pending.value] + proposals)[..i + 1]))
    ensures Verified(ModelOf(predict), st.gens[id].prompt + st.gens[id].outputs, proposals, predictions[..|proposals|],
                     predictions[|proposals|])
  {
    hide Consistent, RowOk, KvOf;
    var g := st.gens[id];
    ActiveRow(st, id, predict, eos);
    DecodingFacts(g, predict, eos);
    PendingContext(st, id);
    var inputs := [g.pending.value] + proposals;
    forall i | 0 <= i < |predictions|
      ensures predictions[i] == ModelOf(predict)(g.prompt + g.outputs + proposals[..i])
    {
      assert inputs[..i + 1] == [g.pending.value] + proposals[..i];
      assert Context(st, id) + inputs[..i + 1] == g.prompt + g.outputs + proposals[..i];
    }
    assert proposals[..|proposals|] == proposals;
  }

  function ReasonOf(terminal: Option<Terminal>): Option<Reason> {
    match terminal
    case None => None
    case Some(StopToken) => Some(Stop)
    case Some(EndOfSequence) => Some(Eos)
    case Some(LengthReached) => Some(Length)
  }

  // The planned commit of a verified row is a legitimate outcome.
  lemma VerifiedRowReady(st: State, id: string, proposals: seq<Token>, plan: GreedyCommit, predict: seq<Slot> -> Token,
                         eos: set<Token>, limit: nat)
    requires Inv(st, predict, eos) && id in st.active && id in st.gens && st.gens[id].phase.Decoding?
    requires st.gens[id].pending.Some? && Staged(st, id, [st.gens[id].pending.value] + proposals)
    requires var g := st.gens[id]; var room := g.maxNew - |g.outputs|;
             && plan.emitted != [] && |plan.emitted| <= room && |plan.emitted| <= |proposals| + 1
             && plan.emitted[..|plan.emitted| - 1] == proposals[..|plan.emitted| - 1]
             && Open(plan.emitted[..|plan.emitted| - 1], g.Ends(eos))
             && plan.terminal == TerminalOf(plan.emitted[|plan.emitted| - 1], |plan.emitted|, room, eos, g.stops,
                                            g.ignoreEos)
             && plan.emitted == GreedyRun(ModelOf(predict), g.prompt + g.outputs, g.Ends(eos), limit)
    ensures OutcomeReady(st, Emits(id, plan.emitted, ReasonOf(plan.terminal)), predict, eos)
  {
    hide Consistent, Staged, RowOk, Chain, GreedyRun;
    var g := st.gens[id];
    ActiveRow(st, id, predict, eos);
    DecodingFacts(g, predict, eos);
    CompleteChainIsGreedyRun(ModelOf(predict), g.prompt + g.outputs, plan.emitted, g.Ends(eos), limit);
    if g.greedy { ChainAppends(ModelOf(predict), g.prompt, g.outputs, plan.emitted); }
    var inputs := [g.pending.value] + proposals;
    StagedPrefix(st, id, inputs, |plan.emitted|);
    assert inputs[..|plan.emitted|] == Inputs(g, plan.emitted);
  }

  // The tokens a greedy row gets in a turn with this draft: the model's own continuation as far
  // as the draft agrees with it and one token further, cut at an ending token and at the limit.
  ghost function TurnTokens(g: Generation, draft: seq<Token>, predict: seq<Slot> -> Token, eos: set<Token>): seq<Token>
    requires |g.outputs| <= g.maxNew
  {
    var agreed := Agreed(ModelOf(predict), g.prompt + g.outputs, draft);
    GreedyRun(ModelOf(predict), g.prompt + g.outputs, g.Ends(eos), Min(agreed + 1, g.maxNew - |g.outputs|))
  }

  lemma PlainTurn(g: Generation, token: Token, predict: seq<Slot> -> Token, eos: set<Token>)
    requires |g.outputs| < g.maxNew && token == predict(KvOf(g.prompt + g.outputs))
    ensures TurnTokens(g, [], predict, eos) == [token]
  {
    hide KvOf;
    var m, context := ModelOf(predict), g.prompt + g.outputs;
    GreedyStep(m, context, g.Ends(eos), 1);
    GreedyStep(m, context + [token], g.Ends(eos), 0);
  }

  lemma PlainRow(st: State, id: string, token: Token, predict: seq<Slot> -> Token, eos: set<Token>)
    requires Inv(st, predict, eos) && id in st.active && id in st.gens && st.gens[id].phase.Decoding?
    requires st.gens[id].pending.Some? && id in st.store.tables && st.store.tables[id].length <= |st.gens[id].Tokens()|
    requires token == predict(KvOf(Context(st, id) + [st.gens[id].pending.value]))
    ensures |st.gens[id].outputs| < st.gens[id].maxNew && TurnTokens(st.gens[id], [], predict, eos) == [token]
  {
    hide Consistent, RowOk, KvOf, Chain, TurnTokens;
    ActiveRow(st, id, predict, eos);
    DecodingFacts(st.gens[id], predict, eos);
    PendingContext(st, id);
    PlainTurn(st.gens[id], token, predict, eos);
  }

  // What a verified row emits, decided from the model's predictions.
  method Decide(ghost st: State, id: string, g: Generation, proposals: seq<Token>, predictions: seq<Token>,
                ghost predict: seq<Slot> -> Token, eos: set<Token>) returns (w: Outcome)
    requires Inv(st, predict, eos) && id in st.active && id in st.gens && st.gens[id] == g && g.phase.Decoding?
    requires g.pending.Some? && Staged(st, id, [g.pending.value] + proposals) && |g.outputs| < g.maxNew
    requires proposals != [] && |predictions| == |proposals| + 1
    requires forall i | 0 <= i < |predictions| ::
               predictions[i] == predict(KvOf(Context(st, id) + ([g.pending.value] + proposals)[..i + 1]))
    ensures w.Emits? && w.id == id && 0 < |w.emitted| <= 1 + |proposals| && OutcomeReady(st, w, predict, eos)
    ensures w.emitted == TurnTokens(g, proposals, predict, eos)
  {
    hide Inv, Staged, OutcomeReady, Agreeing, KvOf, GreedyRun, Verified, Open, Agreed, TerminalOk;
    var target, bonus, room := predictions[..|proposals|], predictions[|proposals|], g.maxNew - |g.outputs|;
    StagedFacts(st, id, [g.pending.value] + proposals);
    PredictionsVerify(st, id, proposals, predictions, predict, eos);
    var plan := PlanGreedyCommit(proposals, target, bonus, room, eos, g.stops, g.ignoreEos);
    assert Verified(ModelOf(predict), g.prompt + g.outputs, proposals, target, bonus);
    VerifiedIsAgreed(ModelOf(predict), g.prompt + g.outputs, proposals, target, bonus);
    VerifiedRowReady(st, id, proposals, plan.value, predict, eos, Min(Agreeing(proposals, target) + 1, room));
    return Emits(id, plan.value.emitted, ReasonOf(plan.value.terminal));
  }

  lemma PendingOf(st: State, id: string, predict: seq<Slot> -> Token, eos: set<Token>)
    requires Inv(st, predict, eos) && id in st.active && id in st.gens && st.gens[id].phase.Decoding?
    ensures st.gens[id].pending.Some? && |st.gens[id].outputs| < st.gens[id].maxNew
  {
    hide Consistent;
    ActiveRow(st, id, predict, eos);
    DecodingFacts(st.gens[id], predict, eos);
  }

  lemma RowToStage(a: State, now: State, rows: seq<Plan>, i: nat, work: seq<Outcome>, predict: seq<Slot> -> Token,
                   eos: set<Token>)
    requires i < |rows| && Staging(a, now, rows, i, work, predict, eos)
    ensures RowReady(now, rows[i])
  {
  }

  // A prefilling request after `count` more tokens of its history; `token` comes after them.
  function FilledBy(g: Generation, count: nat, token: Token, eos: set<Token>): Generation {
    var h := g.(prefilled := g.prefilled + count);
    if FullyPrefilled(h) then Completed(h, Some(token), eos) else h
  }

  // A decoding request emitted between one and `most` tokens.
  ghost predicate Advanced(g: Generation, h: Generation, most: nat, eos: set<Token>) {
    exists emitted: seq<Token> :: emitted != [] && |emitted| <= most && h == Emitted(g, emitted, eos)
  }

  // A prefilling request got `count` tokens of its history.
  ghost predicate Filled(g: Generation, h: Generation, count: nat, eos: set<Token>) {
    exists token: Token :: h == FilledBy(g, count, token, eos)
  }

  // The plan's request did what it was planned to do.
  ghost predicate CarriedOut(a: State, b: State, plan: Plan, eos: set<Token>) {
    && plan.id in a.gens && plan.id in b.gens
    && var g, h := a.gens[plan.id], b.gens[plan.id];
    && (g.phase.Decoding? || g.phase.Prefilling?)
    && (g.phase.Decoding? ==> Advanced(g, h, plan.count, eos))
    && (g.phase.Prefilling? ==> Filled(g, h, plan.count, eos))
  }

  // A row is of the shape its phase calls for.
  predicate RowShape(gens: map<string, Generation>, plan: Plan, drafts: map<string, seq<Token>>, replay: bool) {
    && plan.id in gens
    && (gens[plan.id].phase.Decoding? ==> plan.count == 1 + |DraftOf(drafts, plan.id)|)
    && (gens[plan.id].phase.Prefilling? && replay ==>
          gens[plan.id].prefilled == 0 && plan.count == |gens[plan.id].PrefillIds()|)
  }

  ghost predicate RowsOk(st: State, rows: seq<Plan>, drafts: map<string, seq<Token>>, replay: bool) {
    DistinctRows(rows) && forall plan | plan in rows :: RowReady(st, plan) && RowShape(st.gens, plan, drafts, replay)
  }

  // An outcome of the planned size.
  ghost predicate OutcomeOf(gens: map<string, Generation>, plan: Plan, w: Outcome) {
    && w.id == plan.id && plan.id in gens
    && var g := gens[plan.id];
    && (g.phase.Decoding? || g.phase.Prefilling?)
    && (g.phase.Decoding? ==> w.Emits? && 0 < |w.emitted| <= plan.count)
    && (g.phase.Prefilling? ==>
          w.Fills? && AfterFilling(g, w.tokens, w.replay) == g.(prefilled := g.prefilled + plan.count))
  }

  // Every row of the batch got further.
  ghost predicate AllCarriedOut(a: State, b: State, rows: seq<Plan>, eos: set<Token>) {
    forall plan | plan in rows :: CarriedOut(a, b, plan, eos)
  }

  lemma OutcomeCarriedOut(a: State, staged: State, b: State, plan: Plan, w: Outcome, eos: set<Token>)
    requires staged.gens == a.gens && OutcomeDone(staged, b, w, eos) && OutcomeOf(a.gens, plan, w)
    ensures CarriedOut(a, b, plan, eos)
  {
    hide Emitted, Completed, FullyPrefilled;
    var g := a.gens[plan.id];
    if g.phase.Decoding? {
      assert b.gens[plan.id] == Emitted(g, w.emitted, eos);
    } else {
      assert b.gens[plan.id] == FilledBy(g, plan.count, w.token, eos);
    }
  }

  lemma EveryRowCarriedOut(a: State, staged: State, b: State, rows: seq<Plan>, work: seq<Outcome>,
                           drafts: map<string, seq<Token>>, predict: seq<Slot> -> Token, eos: set<Token>)
    requires staged.gens == a.gens && forall w | w in work :: OutcomeDone(staged, b, w, eos)
    requires |work| == |rows| && Planned(a.gens, rows, work, drafts, predict, eos)
    ensures AllCarriedOut(a, b, rows, eos)
  {
    hide CarriedOut, OutcomeOf, OutcomeDone, TurnPlanned;
    forall plan | plan in rows ensures CarriedOut(a, b, plan, eos) {
      var i :| 0 <= i < |rows| && rows[i] == plan;
      assert work[i] in work;
      OutcomeCarriedOut(a, staged, b, plan, work[i], eos);
    }
  }

  // A greedy decoding row is going to emit exactly what its turn with this draft gives.
  ghost predicate TurnPlanned(g: Generation, w: Outcome, draft: seq<Token>, predict: seq<Slot> -> Token,
                              eos: set<Token>)
  {
    g.phase.Decoding? && g.greedy && |g.outputs| <= g.maxNew ==>
      w.Emits? && w.emitted == TurnTokens(g, draft, predict, eos)
  }

  // The outcomes of the first rows of a batch.
  ghost predicate Planned(gens: map<string, Generation>, rows: seq<Plan>, work: seq<Outcome>,
                          drafts: map<string, seq<Token>>, predict: seq<Slot> -> Token, eos: set<Token>)
  {
    && |work| <= |rows|
    && forall j | 0 <= j < |work| ::
         && OutcomeOf(gens, rows[j], work[j])
         && TurnPlanned(gens[rows[j].id], work[j], DraftOf(drafts, rows[j].id), predict, eos)
  }

  lemma NothingPlannedYet(gens: map<string, Generation>, rows: seq<Plan>, drafts: map<string, seq<Token>>,
                          predict: seq<Slot> -> Token, eos: set<Token>)
    ensures Planned(gens, rows, [], drafts, predict, eos)
  {
  }

  lemma OneMorePlanned(gens: map<string, Generation>, rows: seq<Plan>, work: seq<Outcome>, w: Outcome,
                       drafts: map<string, seq<Token>>, predict: seq<Slot> -> Token, eos: set<Token>)
    requires Planned(gens, rows, work, drafts, predict, eos) && |work| < |rows|
    requires OutcomeOf(gens, rows[|work|], w)
    requires TurnPlanned(gens[rows[|work|].id], w, DraftOf(drafts, rows[|work|].id), predict, eos)
    ensures Planned(gens, rows, work + [w], drafts, predict, eos)
  {
    hide OutcomeOf, TurnPlanned;
  }

  // And has emitted it.
  ghost predicate TurnMade(g: Generation, h: Generation, draft: seq<Token>, predict: seq<Slot> -> Token,
                           eos: set<Token>)
  {
    g.phase.Decoding? && g.greedy && |g.outputs| <= g.maxNew ==>
      h.outputs == g.outputs + TurnTokens(g, draft, predict, eos)
  }

  ghost predicate AllTurned(before: map<string, Generation>, after: map<string, Generation>, rows: seq<Plan>,
                            drafts: map<string, seq<Token>>, predict: seq<Slot> -> Token, eos: set<Token>)
  {
    forall plan | plan in rows ::
      && plan.id in before && plan.id in after
      && TurnMade(before[plan.id], after[plan.id], DraftOf(drafts, plan.id), predict, eos)
  }

  lemma OneTurned(a: State, b: State, w: Outcome, draft: seq<Token>, predict: seq<Slot> -> Token, eos: set<Token>)
    requires OutcomeDone(a, b, w, eos) && TurnPlanned(a.gens[w.id], w, draft, predict, eos)
    ensures TurnMade(a.gens[w.id], b.gens[w.id], draft, predict, eos)
  {
    hide TurnTokens, Completed, AfterFilling, FullyPrefilled;
  }

  lemma EveryRowTurned(a: State, staged: State, b: State, rows: seq<Plan>, work: seq<Outcome>,
                       drafts: map<string, seq<Token>>, predict: seq<Slot> -> Token, eos: set<Token>)
    requires staged.gens == a.gens && forall w | w in work :: OutcomeDone(staged, b, w, eos)
    requires |work| == |rows| && Planned(a.gens, rows, work, drafts, predict, eos)
    ensures AllTurned(a.gens, b.gens, rows, drafts, predict, eos)
  {
    hide OutcomeDone, TurnPlanned, TurnMade;
    forall plan | plan in rows
      ensures && plan.id in a.gens && plan.id in b.gens
              && TurnMade(a.gens[plan.id], b.gens[plan.id], DraftOf(drafts, plan.id), predict, eos)
    {
      var i :| 0 <= i < |rows| && rows[i] == plan;
      assert work[i] in work && work[i].id == rows[i].id;
      DoneIds(staged, b, work[i], eos);
      OneTurned(staged, b, work[i], DraftOf(drafts, plan.id), predict, eos);
    }
  }

  lemma DoneIds(a: State, b: State, w: Outcome, eos: set<Token>)
    requires OutcomeDone(a, b, w, eos)
    ensures w.id in a.gens && w.id in b.gens
  {
  }

  lemma RowReadyFacts(st: State, plan: Plan)
    requires RowReady(st, plan)
    ensures plan.id in st.active && plan.id in st.gens && plan.id in st.store.tables
    ensures st.gens[plan.id].phase.Decoding? || st.gens[plan.id].phase.Prefilling?
  {
  }

  // The draft for a request, empty if it has none.
  function DraftOf(drafts: map<string, seq<Token>>, id: string): (r: seq<Token>)
    ensures id in drafts ==> r == drafts[id]
    ensures id !in drafts ==> r == []
  {
    if id in drafts then drafts[id] else []
  }

  // ---- a decode batch as a whole ----------------------------------------------------------

  lemma SortedIsDistinct(gens: map<string, Generation>, order: seq<string>)
    requires forall x | x in order :: x in gens
    requires forall i, j | 0 <= i < j < |order| :: Before(KeyOf(gens, order[i]), KeyOf(gens, order[j]))
    ensures Distinct(order)
  {
    forall i, j | 0 <= i < j < |order| ensures order[i] != order[j] {
      ArrivalOrder(KeyOf(gens, order[i]), KeyOf(gens, order[j]), KeyOf(gens, order[i]));
    }
  }

  // The requests of a decode batch in order, and how much each one writes.
  ghost predicate DecodeOrder(ids: set<string>, order: seq<string>, plans: seq<Plan>, drafts: map<string, seq<Token>>) {
    && (forall x :: x in order <==> x in ids) && |plans| == |order|
    && (forall i | 0 <= i < |order| :: plans[i] == Plan(order[i], 1 + |DraftOf(drafts, order[i])|))
  }

  lemma DecodePlansOk(st: State, order: seq<string>, plans: seq<Plan>)
    requires Distinct(order) && |plans| == |order|
    requires forall i | 0 <= i < |order| :: plans[i].id == order[i] && plans[i].count > 0
    requires forall x | x in order :: x in st.active && x in st.gens && st.gens[x].phase.Decoding?
    ensures PlansOk(st, plans)
  {
    forall plan | plan in plans ensures PlanOk(st, plan) {
      var i :| 0 <= i < |plans| && plans[i] == plan;
      assert order[i] in order;
    }
  }

  lemma DecodeRowsReady(a: State, b: State, plans: seq<Plan>, rows: seq<Plan>, drafts: map<string, seq<Token>>,
                        epoch: nat)
    requires Thinned(a, b, epoch) && rows == StillActive(plans, b.active) && DistinctRows(plans)
    requires forall plan | plan in plans ::
               plan.count == 1 + |DraftOf(drafts, plan.id)| && plan.id in a.gens && a.gens[plan.id].phase.Decoding?
    requires forall plan | plan in rows :: Ready(b, plan.id, plan.count)
    ensures RowsOk(b, rows, drafts, false)
    ensures forall plan | plan in rows :: plan.id in b.gens && b.gens[plan.id].phase.Decoding?
  {
    hide Ready;
    StillActiveDistinct(plans, b.active);
    ThinnedFacts(a, b, epoch);
  }

  lemma {:induction false} StillActiveDistinct(plans: seq<Plan>, active: set<string>)
    requires DistinctRows(plans)
    ensures DistinctRows(StillActive(plans, active))
  {
    if plans != [] {
      var shorter, last := plans[..|plans| - 1], plans[|plans| - 1];
      StillActiveDistinct(shorter, active);
      forall plan | plan in StillActive(shorter, active) ensures plan.id != last.id {
        assert plan in shorter;
        var i :| 0 <= i < |shorter| && shorter[i] == plan;
        assert plans[i] == plan;
      }
      var rest := StillActive(shorter, active);
      assert forall i | 0 <= i < |rest| :: rest[i] in rest;
    }
  }

  // ---- what a batch does for its requests ------------------------------------------------

  // A request gave way to an older one, or was alone and still lacked memory.
  ghost predicate GaveWay(a: State, b: State, id: string, epoch: nat) {
    && id in a.gens && id in b.gens
    && (|| (b.gens[id] == a.gens[id].Preempted(epoch) && !Oldest(a, id))
        || (b.gens[id] == a.gens[id].(phase := Failed, reason := KvPoolExhausted) && b.active == {}))
  }

  ghost function Tasks(plans: seq<Plan>): set<Plan> { set plan | plan in plans }

  // One token per request, and the proposals to verify.
  ghost function DecodeTasks(ids: set<string>, drafts: map<string, seq<Token>>): set<Plan> {
    set id | id in ids :: Plan(id, 1 + |DraftOf(drafts, id)|)
  }

  // Every task was carried out unless its request gave way; other requests stay as they are
  // unless they gave way.
  ghost predicate BatchProgress(a: State, b: State, tasks: set<Plan>, eos: set<Token>, epoch: nat) {
    && Evolves(a.gens, b.gens) && b.gens.Keys == a.gens.Keys && b.reserved == a.reserved && b.active <= a.active
    && (forall plan | plan in tasks :: CarriedOut(a, b, plan, eos) || GaveWay(a, b, plan.id, epoch))
    && (forall x | x in a.gens && x !in a.active :: b.gens[x] == a.gens[x])
    && (forall x | x in a.active && x in a.gens && (forall plan | plan in tasks :: plan.id != x) ::
          if x in b.active then b.gens[x] == a.gens[x] else GaveWay(a, b, x, epoch))
  }

  ghost predicate LacksMemory(b: State, id: string) {
    id in b.gens && b.gens[id].phase.Failed? && b.gens[id].reason.KvPoolExhausted?
  }

  // The oldest request of all: if the batch has a task for it, it is carried out exactly if the
  // request could get the room alone, and otherwise the request fails.
  ghost predicate OldestDecided(a: State, b: State, tasks: set<Plan>, eos: set<Token>) {
    forall x, plan | Oldest(a, x) && plan in tasks && plan.id == x ::
      if WouldServe(a, plan) then CarriedOut(a, b, plan, eos) else LacksMemory(b, x)
  }

  // Whatever happened, it made no difference to what the request can get.
  ghost predicate Waited(a: State, b: State, id: string) {
    && id in a.gens && id in b.gens && id in b.active && b.gens[id] == a.gens[id]
    && forall target: nat :: Servable(a, id, target) <==> Servable(b, id, target)
  }

  lemma OldestOfBatch(a: State, middle: State, b: State, plans: seq<Plan>, rows: seq<Plan>, eos: set<Token>, epoch: nat)
    requires Thinned(a, middle, epoch) && OldestServed(a, middle, plans)
    requires Moved(middle, b, RowIds(rows)) && AllCarriedOut(middle, b, rows, eos)
    requires forall plan | plan in plans && plan.id in middle.active :: plan in rows
    requires forall plan | plan in rows :: plan.id in middle.active
    ensures OldestDecided(a, b, Tasks(plans), eos)
  {
    hide Oldest, WouldServe, CarriedOut, Undisturbed, Continues, Thinned;
    forall x, plan | Oldest(a, x) && plan in Tasks(plans) && plan.id == x
      ensures if WouldServe(a, plan) then CarriedOut(a, b, plan, eos) else LacksMemory(b, x)
    {
      if x in middle.active {
        assert plan in rows;
        CarriedOutLater(a, middle, b, plan, eos, epoch);
      } else {
        OldestLost(a, middle, x, epoch);
        assert x !in RowIds(rows);
      }
    }
  }

  lemma OldestLost(a: State, b: State, id: string, epoch: nat)
    requires Thinned(a, b, epoch) && Oldest(a, id) && id !in b.active
    ensures LacksMemory(b, id) && b.gens.Keys == a.gens.Keys
  {
    LeftOut(a, b, id, epoch);
  }

  // The oldest request, if the remaining rows go through a whole batch of their own.
  lemma OldestThroughFallback(a: State, middle: State, b: State, plans: seq<Plan>, rows: seq<Plan>, replay: bool,
                              eos: set<Token>, epoch: nat, later: nat, predict: seq<Slot> -> Token)
    requires Inv(middle, predict, eos) && Thinned(a, middle, epoch) && OldestServed(a, middle, plans)
    requires rows == StillActive(plans, middle.active) && RowsOk(middle, rows, map[], replay)
    requires BatchProgress(middle, b, Tasks(rows), eos, later) && OldestDecided(middle, b, Tasks(rows), eos)
    ensures OldestDecided(a, b, Tasks(plans), eos)
  {
    hide Inv, Oldest, WouldServe, CarriedOut, GaveWay, RowReady, Thinned, Continues, StillActive;
    ThinnedFacts(a, middle, epoch);
    forall x, plan | Oldest(a, x) && plan in Tasks(plans) && plan.id == x
      ensures if WouldServe(a, plan) then CarriedOut(a, b, plan, eos) else LacksMemory(b, x)
    {
      if x in middle.active {
        assert plan in rows && plan in Tasks(rows) && RowReady(middle, plan);
        RowWouldBeServed(middle, plan, predict, eos);
        StillOldest(a, middle, x);
        CarriedOutLater(a, middle, b, plan, eos, epoch);
      } else {
        OldestLost(a, middle, x, epoch);
      }
    }
  }

  // A row that has its room could have it alone.
  lemma RowWouldBeServed(st: State, plan: Plan, predict: seq<Slot> -> Token, eos: set<Token>)
    requires Inv(st, predict, eos) && RowReady(st, plan)
    ensures WouldServe(st, plan)
  {
    hide Inv, Servable, GenOk, Stored, WriteReady;
    ActiveRow(st, plan.id, predict, eos);
    RoomIsServable(st, plan.id, CommittedLength(st.gens[plan.id]) + plan.count, predict, eos);
  }

  lemma StillUnhindered(a: State, turn: State, now: State, work: seq<Outcome>, i: nat)
    requires i < |work| && Moved(a, turn, Ids(work[..i])) && Moved(turn, now, {work[i].id})
    requires (forall w | w in work :: w.Emits?) ==> Unhindered(a, turn, {})
    requires work[i].Emits? ==> Unhindered(turn, now, {})
    ensures (forall w | w in work :: w.Emits?) ==> Unhindered(a, now, {})
  {
    hide Unhindered, Undisturbed, Continues;
    if forall w | w in work :: w.Emits? {
      UnhinderedOn(a, turn, now, {});
    }
  }

  // A batch of decode rows changes nothing about what the requests that stay hold.
  lemma DecodeUnhindered(a: State, staged: State, b: State, rows: seq<Plan>, work: seq<Outcome>,
                         drafts: map<string, seq<Token>>, predict: seq<Slot> -> Token, eos: set<Token>)
    requires Unhindered(a, staged, {}) && Moved(staged, b, RowIds(rows))
    requires (forall w | w in work :: w.Emits?) ==> Unhindered(staged, b, {})
    requires |work| == |rows| && Planned(a.gens, rows, work, drafts, predict, eos)
    ensures (forall plan | plan in rows :: plan.id in a.gens && a.gens[plan.id].phase.Decoding?) ==>
              Unhindered(a, b, {})
  {
    hide Unhindered, Undisturbed, Continues, TurnPlanned;
    if forall plan | plan in rows :: plan.id in a.gens && a.gens[plan.id].phase.Decoding? {
      forall w | w in work ensures w.Emits? {
        var i :| 0 <= i < |work| && work[i] == w;
        assert OutcomeOf(a.gens, rows[i], work[i]) && rows[i] in rows;
      }
      UnhinderedOn(a, staged, b, {});
    }
  }

  // The oldest request, if the batch has nothing for it.
  lemma OldestWaited(a: State, middle: State, b: State, ids: set<string>, plans: seq<Plan>, rows: seq<Plan>, epoch: nat,
                     predict: seq<Slot> -> Token, eos: set<Token>)
    requires Inv(a, predict, eos) && Inv(middle, predict, eos) && Inv(b, predict, eos)
    requires Thinned(a, middle, epoch) && OldestServed(a, middle, plans) && Unhindered(a, middle, RowIds(plans))
    requires Bystanders(a, middle, plans) && Moved(middle, b, RowIds(rows)) && Unhindered(middle, b, {})
    requires ids <= a.active && (forall plan | plan in plans :: plan.id in ids)
    requires forall plan | plan in rows :: plan in plans
    ensures forall x | x !in ids && Oldest(a, x) :: Waited(a, b, x)
  {
    hide Inv, Unhindered, Oldest, Undisturbed, Continues, WouldServe, Thinned;
    MovedFrame(middle, b, RowIds(rows));
    UnhinderedOn(a, middle, b, RowIds(plans));
    UnhinderedMore(a, b, RowIds(plans), ids);
    forall x | x !in ids && Oldest(a, x) ensures Waited(a, b, x) {
      ThinnedFacts(a, middle, epoch);
      ThinnedFrame(a, middle, epoch);
      assert x in middle.active && x !in RowIds(rows);
      UndisturbedTransitive(a.store, middle.store, b.store, x);
      UndisturbedFacts(a.store, b.store, x);
      WaitedAside(a, b, x, ids, predict, eos);
    }
  }

  lemma MovedFrame(a: State, b: State, ids: set<string>)
    requires Moved(a, b, ids)
    ensures b.active <= a.active && b.reserved == a.reserved && b.gens.Keys == a.gens.Keys
    ensures forall x | x in a.active && x !in ids ::
              x in b.active && x in b.gens && x in a.gens && b.gens[x] == a.gens[x]
  {
  }

  lemma WaitedAside(a: State, b: State, id: string, ids: set<string>, predict: seq<Slot> -> Token, eos: set<Token>)
    requires Inv(a, predict, eos) && Inv(b, predict, eos) && Unhindered(a, b, ids) && b.reserved == a.reserved
    requires ids <= a.active && id !in ids && id in a.active && id in b.active
    requires id in a.gens && id in b.gens && b.gens[id] == a.gens[id]
    requires id in a.store.tables && id in b.store.tables && b.store.tables[id] == a.store.tables[id]
    ensures Waited(a, b, id)
  {
    hide Inv, Unhindered, Servable;
    ActiveApart(a, predict, eos);
    forall target: nat ensures Servable(a, id, target) <==> Servable(b, id, target) {
      SameFuture(a, b, id, ids, target);
    }
  }

  lemma ActiveApart(st: State, predict: seq<Slot> -> Token, eos: set<Token>)
    requires Inv(st, predict, eos)
    ensures st.active !! st.reserved && Shaped(st.store) && st.active <= st.store.tables.Keys
  {
    hide GenOk, RowOk, EntryHolds, CatalogHolds, Exclusive;
  }

  // Rows that had their room all do what they planned.
  lemma RunIsProgress(a: State, b: State, rows: seq<Plan>, eos: set<Token>, epoch: nat)
    requires Moved(a, b, RowIds(rows)) && AllCarriedOut(a, b, rows, eos)
    requires forall plan | plan in rows :: plan.id in a.active
    ensures BatchProgress(a, b, Tasks(rows), eos, epoch)
  {
    hide Continues, Undisturbed, CarriedOut, GaveWay;
    forall x | x in RowIds(rows) ensures exists plan :: plan in Tasks(rows) && plan.id == x {
      var plan :| plan in rows && plan.id == x;
      assert plan in Tasks(rows);
    }
  }

  // While a batch looks for room requests may give way; those that remain go on.
  lemma ThinnedThenProgress(a: State, middle: State, b: State, plans: seq<Plan>, rows: seq<Plan>, eos: set<Token>,
                            epoch: nat, predict: seq<Slot> -> Token)
    requires Inv(a, predict, eos) && Thinned(a, middle, epoch)
    requires BatchProgress(middle, b, Tasks(rows), eos, epoch)
    requires forall plan :: plan in rows <==> plan in plans && plan.id in middle.active
    requires forall plan | plan in plans :: plan.id in a.active
    ensures BatchProgress(a, b, Tasks(plans), eos, epoch)
  {
    hide Inv, Continues, CarriedOut, GaveWay, Thinned;
    BatchThinned(a, middle, epoch, predict, eos);
    AllActive(a, predict, eos);
    ThinnedFrame(a, middle, epoch);
    EvolvesOn(a.gens, middle.gens, b.gens);
    forall x | x in a.active && x !in middle.active
      ensures GaveWay(a, b, x, epoch)
    {
      LeftOut(a, middle, x, epoch);
      GaveWayStays(a, middle, b, x, epoch);
    }
    forall x | x in middle.active && GaveWay(middle, b, x, epoch)
      ensures GaveWay(a, b, x, epoch)
    {
      GaveWayLater(a, middle, b, x, epoch);
    }
    forall plan | plan in Tasks(plans) ensures CarriedOut(a, b, plan, eos) || GaveWay(a, b, plan.id, epoch) {
      if plan.id in middle.active {
        assert plan in Tasks(rows);
        CarriedOutLater(a, middle, b, plan, eos, epoch);
      }
    }
    forall x | x in a.active && x in a.gens && (forall plan | plan in Tasks(plans) :: plan.id != x)
      ensures if x in b.active then b.gens[x] == a.gens[x] else GaveWay(a, b, x, epoch)
    {
      if x in middle.active {
        assert forall plan | plan in Tasks(rows) :: plan in Tasks(plans);
        ThinnedFacts(a, middle, epoch);
      }
    }
  }

  lemma ThinnedFrame(a: State, b: State, epoch: nat)
    requires Thinned(a, b, epoch)
    ensures b.gens.Keys == a.gens.Keys && b.reserved == a.reserved && b.active <= a.active
    ensures forall x | x in a.gens && x !in a.active :: b.gens[x] == a.gens[x]
  {
  }

  // A batch as a whole: room for all its plans, then one pass over the rows that remain.
  lemma BatchIsProgress(a: State, middle: State, b: State, plans: seq<Plan>, rows: seq<Plan>, eos: set<Token>,
                        epoch: nat, predict: seq<Slot> -> Token)
    requires Inv(a, predict, eos) && Thinned(a, middle, epoch)
    requires Moved(middle, b, RowIds(rows)) && AllCarriedOut(middle, b, rows, eos)
    requires forall plan :: plan in rows <==> plan in plans && plan.id in middle.active
    requires forall plan | plan in plans :: plan.id in a.active
    ensures BatchProgress(a, b, Tasks(plans), eos, epoch)
  {
    hide Inv, Moved, AllCarriedOut, BatchProgress, Thinned;
    RunIsProgress(middle, b, rows, eos, epoch);
    ThinnedThenProgress(a, middle, b, plans, rows, eos, epoch, predict);
  }

  // A request of the batch that is no longer active when the forward pass starts.
  lemma LeftOut(a: State, middle: State, id: string, epoch: nat)
    requires Thinned(a, middle, epoch) && id in a.active && id !in middle.active
    ensures GaveWay(a, middle, id, epoch)
  {
    if Oldest(a, id) {
      var x :| Oldest(a, x) && middle.gens[x].phase.Failed?;
      ArrivalOrder(KeyOf(a.gens, x), KeyOf(a.gens, id), KeyOf(a.gens, x));
      assert x == id;
    }
  }

  lemma GaveWayStays(a: State, middle: State, b: State, id: string, epoch: nat)
    requires GaveWay(a, middle, id, epoch) && id in b.gens && b.gens[id] == middle.gens[id] && b.active <= middle.active
    ensures GaveWay(a, b, id, epoch)
  {
  }

  lemma GaveWayLater(a: State, middle: State, b: State, id: string, epoch: nat)
    requires Thinned(a, middle, epoch) && id in middle.active && GaveWay(middle, b, id, epoch)
    ensures GaveWay(a, b, id, epoch)
  {
    if Oldest(a, id) { assert Oldest(middle, id); }
  }

  lemma CarriedOutLater(a: State, middle: State, b: State, plan: Plan, eos: set<Token>, epoch: nat)
    requires Thinned(a, middle, epoch) && plan.id in middle.active
    ensures CarriedOut(middle, b, plan, eos) ==> CarriedOut(a, b, plan, eos)
  {
    hide Advanced, Filled;
  }

  lemma ActiveIsLive(st: State, id: string, predict: seq<Slot> -> Token, eos: set<Token>)
    requires Inv(st, predict, eos) && id in st.active
    ensures id in st.gens && st.gens[id].Live()
  {
    hide Consistent;
    ActiveRow(st, id, predict, eos);
  }

  lemma DecodePlansAre(ids: set<string>, order: seq<string>, plans: seq<Plan>, drafts: map<string, seq<Token>>)
    requires DecodeOrder(ids, order, plans, drafts)
    ensures forall plan | plan in plans :: plan.id in ids
  {
    forall plan | plan in plans ensures plan.id in ids {
      var i :| 0 <= i < |plans| && plans[i] == plan;
      assert order[i] in order;
    }
  }

  lemma DecodeTasksAre(ids: set<string>, order: seq<string>, plans: seq<Plan>, drafts: map<string, seq<Token>>)
    requires DecodeOrder(ids, order, plans, drafts)
    ensures Tasks(plans) == DecodeTasks(ids, drafts)
  {
    forall plan ensures plan in Tasks(plans) <==> plan in DecodeTasks(ids, drafts) {
      if plan in Tasks(plans) {
        var i :| 0 <= i < |plans| && plans[i] == plan;
        assert order[i] in order;
      }
      if plan in DecodeTasks(ids, drafts) {
        var i :| 0 <= i < |order| && order[i] == plan.id;
        assert plans[i] in plans;
      }
    }
  }

  // ---- prefilling rows --------------------------------------------------------------------

  lemma FillFacts(st: State, id: string, tokens: seq<Token>, token: Token, replay: bool, predict: seq<Slot> -> Token,
                  eos: set<Token>)
    requires Inv(st, predict, eos) && FillReady(st, id, tokens, token, replay, predict)
    ensures id in st.active && id in st.gens && st.gens[id].phase.Prefilling? && tokens != []
    ensures st.gens[id].prefilled + |tokens| <= |st.gens[id].PrefillIds()|
    ensures Staged(st, id, st.gens[id].PrefillIds()[st.gens[id].prefilled..st.gens[id].prefilled + |tokens|])
    ensures replay ==> && st.gens[id].prefilled + |tokens| == |st.gens[id].prompt|
                       && Ready(st, id, |st.gens[id].PrefillIds()| - st.gens[id].prefilled)
    ensures forall n :: st.gens[id].(prefilled := n).PrefillIds() == st.gens[id].PrefillIds()
  {
    hide Inv, Staged;
    StagedFacts(st, id, tokens);
  }

  // The record after the chunk, and after the replay if there was one.
  lemma FilledFacts(a: State, b: State, id: string, tokens: seq<Token>, token: Token, replay: bool,
                    predict: seq<Slot> -> Token)
    requires FillReady(a, id, tokens, token, replay, predict)
    requires id in b.gens && b.gens[id] == AfterFilling(a.gens[id], tokens, replay)
    ensures FullyPrefilled(b.gens[id]) && b.gens[id].greedy && !b.gens[id].resuming ==>
              token == predict(KvOf(b.gens[id].prompt))
  {
    hide Staged, Ready, KvOf;
  }

  lemma FillIsDone(a: State, b: State, id: string, tokens: seq<Token>, token: Token, replay: bool, eos: set<Token>)
    requires id in a.gens && id in b.gens
    requires var h := AfterFilling(a.gens[id], tokens, replay);
             b.gens[id] == if FullyPrefilled(h) then Completed(h, Some(token), eos) else h
    ensures OutcomeDone(a, b, Fills(id, tokens, token, replay), eos)
  {
  }

  // A chunk of history, committed, leaves a proper row.
  lemma HistoryRow(st: State, id: string, count: nat, predict: seq<Slot> -> Token, eos: set<Token>)
    requires Inv(st, predict, eos) && count > 0 && id in st.gens && st.gens[id].phase.Prefilling?
    requires st.gens[id].prefilled + count <= |st.gens[id].PrefillIds()|
    requires Staged(st, id, st.gens[id].PrefillIds()[st.gens[id].prefilled..st.gens[id].prefilled + count])
    ensures id in st.active && Ready(st, id, count) && st.active <= st.gens.Keys && st.active <= st.store.tables.Keys
    ensures var h := st.gens[id].(prefilled := st.gens[id].prefilled + count);
            && GenOk(h, predict, eos) && Continues(st.gens[id], h)
            && RowOk(Committed(st.store, id, st.store.tables[id].length + count), id, h)
  {
    hide Consistent, Stored, KvOf, Inv, WriteReady;
    var g := st.gens[id];
    var chunk := g.PrefillIds()[g.prefilled..g.prefilled + count];
    StagedFacts(st, id, chunk);
    ActiveRow(st, id, predict, eos);
    assert g.PrefillIds() == g.Tokens()[..|g.PrefillIds()|];
    assert Context(st, id) + chunk == g.Tokens()[..g.prefilled + count];
  }

  lemma ReadyAfterCommit(a: State, b: State, id: string, n: nat, count: nat)
    requires Ready(a, id, n) && 0 < count <= n
    requires b.store == Committed(a.store, id, a.store.tables[id].length + count)
    requires id in b.active && id in b.gens && b.store.tables[id].length <= |b.gens[id].Tokens()|
    ensures Ready(b, id, n - count)
  {
  }

  lemma ReadyIgnoresPool(a: State, b: State, id: string, n: nat)
    requires Ready(a, id, n) && b == a.(store := a.store.(pool := b.store.pool))
    ensures Ready(b, id, n)
  {
  }

  lemma MovedSelf(st: State, id: string, predict: seq<Slot> -> Token, eos: set<Token>)
    requires Inv(st, predict, eos)
    ensures Moved(st, st, {id})
  {
    hide Undisturbed, Inv, Continues;
    MovedNothing(st, predict, eos);
  }

  // The next history token of a resumed request is the next chunk of its prefill.
  lemma ReplayStep(st: State, id: string, g: Generation, i: nat, predict: seq<Slot> -> Token, eos: set<Token>)
    requires Inv(st, predict, eos) && id in st.active && id in st.gens && st.gens[id] == g.(prefilled := |g.prompt| + i)
    requires g.phase.Prefilling? && |g.prompt| + i < |g.PrefillIds()|
    requires Ready(st, id, |g.PrefillIds()| - |g.prompt| - i)
    ensures Ready(st, id, 1)
    ensures st.gens[id].PrefillIds() == g.PrefillIds()
    ensures [g.PrefillIds()[|g.prompt|..][i]] == g.PrefillIds()[|g.prompt| + i..|g.prompt| + i + 1]
  {
    hide Inv, AllPrivate;
  }

  // Before the forward pass of a prefilling row.
  lemma FillStart(st: State, id: string, tokens: seq<Token>, count: nat, replay: bool, predict: seq<Slot> -> Token,
                  eos: set<Token>)
    requires Inv(st, predict, eos) && RowReady(st, Plan(id, count)) && st.gens[id].phase.Prefilling?
    requires replay ==> st.gens[id].prefilled == 0 && count == |st.gens[id].PrefillIds()|
    requires tokens == if replay then st.gens[id].prompt
                       else st.gens[id].PrefillIds()[st.gens[id].prefilled..st.gens[id].prefilled + count]
    ensures |tokens| == if replay then |st.gens[id].prompt| else count
    ensures tokens != [] && |tokens| <= count && Ready(st, id, |tokens|)
    ensures var g := st.gens[id];
            && g.prefilled + |tokens| <= |g.PrefillIds()|
            && tokens == g.PrefillIds()[g.prefilled..g.prefilled + |tokens|]
  {
    hide Consistent, Inv, AllPrivate;
    ActiveRow(st, id, predict, eos);
  }

  lemma FillCount(g: Generation, tokens: seq<Token>, count: nat, replay: bool)
    requires replay ==> g.prefilled == 0 && count == |g.PrefillIds()|
    requires !replay ==> |tokens| == count
    ensures AfterFilling(g, tokens, replay) == g.(prefilled := g.prefilled + count)
  {
  }

  // And after it.
  lemma FillEnd(st: State, id: string, tokens: seq<Token>, count: nat, token: Token, replay: bool,
                predict: seq<Slot> -> Token, eos: set<Token>)
    requires Inv(st, predict, eos) && id in st.gens && st.gens[id].phase.Prefilling? && tokens != []
    requires replay ==>
               st.gens[id].prefilled == 0 && count == |st.gens[id].PrefillIds()| && tokens == st.gens[id].prompt
    requires var g := st.gens[id];
             && g.prefilled + |tokens| <= |g.PrefillIds()|
             && tokens == g.PrefillIds()[g.prefilled..g.prefilled + |tokens|]
    requires Staged(st, id, tokens) && Ready(st, id, count)
    requires st.gens[id].greedy ==> token == predict(KvOf(Context(st, id) + tokens))
    ensures FillReady(st, id, tokens, token, replay, predict)
  {
    hide Inv, Staged, KvOf, Ready, RowOk, GenOk, Consistent, Generation.PrefillIds, Context;
    var g := st.gens[id];
    assert g.prefilled + |tokens| == |g.PrefillIds()| && !g.resuming && g.greedy ==>
        token == predict(KvOf(g.prompt))
    by {
      StagedFacts(st, id, tokens);
      ActiveRow(st, id, predict, eos);
      PrefillRowFacts(st, id, predict, eos);
      WholePrompt(st, id, tokens);
    }
  }

  // The chunk that completes a first prefill completes the prompt.
  lemma WholePrompt(st: State, id: string, tokens: seq<Token>)
    requires id in st.gens && id in st.store.tables && st.store.tables[id].length == st.gens[id].prefilled
    requires var g := st.gens[id];
             && g.PrefillIds() <= g.Tokens() && g.prefilled + |tokens| <= |g.PrefillIds()|
             && tokens == g.PrefillIds()[g.prefilled..g.prefilled + |tokens|]
             && (!g.resuming ==> g.PrefillIds() == g.prompt)
    ensures var g := st.gens[id];
            g.prefilled + |tokens| == |g.PrefillIds()| && !g.resuming ==> Context(st, id) + tokens == g.prompt
  {
    var g := st.gens[id];
    assert Context(st, id) == g.PrefillIds()[..g.prefilled];
    assert Context(st, id) + tokens == g.PrefillIds()[..g.prefilled + |tokens|];
  }

  lemma PrefillRowFacts(st: State, id: string, predict: seq<Slot> -> Token, eos: set<Token>)
    requires Inv(st, predict, eos) && id in st.active && id in st.gens && st.gens[id].phase.Prefilling?
    ensures id in st.store.tables && st.store.tables[id].length == st.gens[id].prefilled <= |st.gens[id].PrefillIds()|
    ensures st.gens[id].PrefillIds() <= st.gens[id].Tokens()
    ensures !st.gens[id].resuming ==> st.gens[id].PrefillIds() == st.gens[id].prompt
  {
    hide Consistent;
    ActiveRow(st, id, predict, eos);
  }

  // ---- what a turn gives ------------------------------------------------------------------

  // Whoever had tokens before got no more, or it had a turn and got all that its turn gives.
  ghost predicate Turned(before: map<string, Generation>, after: map<string, Generation>, ids: set<string>,
                         drafts: map<string, seq<Token>>, predict: seq<Slot> -> Token, eos: set<Token>)
  {
    forall x | x in before && x in after && before[x].outputs != [] ::
      || after[x].outputs == before[x].outputs
      || (x in ids && TurnMade(before[x], after[x], DraftOf(drafts, x), predict, eos))
  }

  lemma TurnedNobody(gens: map<string, Generation>, predict: seq<Slot> -> Token, eos: set<Token>)
    ensures Turned(gens, gens, {}, map[], predict, eos)
  {
  }

  lemma TurnedMore(before: map<string, Generation>, after: map<string, Generation>, ids: set<string>, more: set<string>,
                   drafts: map<string, seq<Token>>, others: map<string, seq<Token>>, predict: seq<Slot> -> Token,
                   eos: set<Token>)
    requires Turned(before, after, ids, drafts, predict, eos) && ids <= more
    requires forall x | x in ids :: DraftOf(drafts, x) == DraftOf(others, x)
    ensures Turned(before, after, more, others, predict, eos)
  {
    hide TurnMade;
  }

  lemma LaterTurn(g: Generation, h: Generation, after: Generation, draft: seq<Token>, predict: seq<Slot> -> Token,
                  eos: set<Token>)
    requires Continues(g, h) && h.outputs == g.outputs && h.phase.Decoding? && TurnMade(h, after, draft, predict, eos)
    ensures TurnMade(g, after, draft, predict, eos)
  {
    hide Agreed, GreedyRun;
  }

  // One after the other, as long as nobody has two turns.
  lemma TurnedOn(a: map<string, Generation>, b: map<string, Generation>, c: map<string, Generation>, first: set<string>,
                 second: set<string>, drafts: map<string, seq<Token>>, predict: seq<Slot> -> Token, eos: set<Token>)
    requires Evolves(a, b) && b.Keys == a.Keys && first !! second
    requires Turned(a, b, first, drafts, predict, eos) && Turned(b, c, second, drafts, predict, eos)
    requires forall x | x in second && x in b :: b[x].phase.Decoding?
    ensures Turned(a, c, first + second, drafts, predict, eos)
  {
    hide TurnTokens;
    forall x | x in a && x in c && a[x].outputs != []
      ensures || c[x].outputs == a[x].outputs
              || (x in first + second && TurnMade(a[x], c[x], DraftOf(drafts, x), predict, eos))
    {
      assert Continues(a[x], b[x]);
      if b[x].outputs == a[x].outputs && c[x].outputs != b[x].outputs {
        LaterTurn(a[x], b[x], c[x], DraftOf(drafts, x), predict, eos);
      }
    }
  }

  // The drafts of less than this depth.
  ghost function Early(drafts: map<string, seq<Token>>, depth: nat): set<string> {
    set x | x in drafts && |drafts[x]| < depth
  }

  lemma ThinnedOutputs(a: State, b: State, epoch: nat)
    requires Thinned(a, b, epoch)
    ensures b.gens.Keys == a.gens.Keys && forall x | x in a.gens :: b.gens[x].outputs == a.gens[x].outputs
    ensures forall x | x in b.active :: x in a.gens && b.gens[x] == a.gens[x]
  {
  }

  lemma ThinnedTurned(a: State, b: State, epoch: nat, predict: seq<Slot> -> Token, eos: set<Token>)
    requires Thinned(a, b, epoch)
    ensures Turned(a.gens, b.gens, {}, map[], predict, eos)
  {
    hide Thinned;
    ThinnedOutputs(a, b, epoch);
  }

  // A chunk gives no token to whoever had some before: a resumed history is only rebuilt.
  lemma FilledQuietly(a: State, b: State, plan: Plan, predict: seq<Slot> -> Token, eos: set<Token>)
    requires plan.id in a.gens && GenOk(a.gens[plan.id], predict, eos) && a.gens[plan.id].phase.Prefilling?
    requires CarriedOut(a, b, plan, eos) && a.gens[plan.id].outputs != []
    ensures plan.id in b.gens && b.gens[plan.id].outputs == a.gens[plan.id].outputs
  {
    hide Emitted;
  }

  // A batch: room first, then a turn or a chunk for whoever is left.
  lemma TurnedByRun(a: State, middle: State, b: State, rows: seq<Plan>, ids: set<string>,
                    drafts: map<string, seq<Token>>, epoch: nat, predict: seq<Slot> -> Token, eos: set<Token>)
    requires Thinned(a, middle, epoch) && Inv(middle, predict, eos) && Moved(middle, b, RowIds(rows))
    requires AllTurned(middle.gens, b.gens, rows, drafts, predict, eos) && AllCarriedOut(middle, b, rows, eos)
    requires forall plan | plan in rows ::
               && plan.id in middle.active && plan.id in middle.gens
               && (plan.id in ids || middle.gens[plan.id].phase.Prefilling?)
    ensures Turned(a.gens, b.gens, ids, drafts, predict, eos)
  {
    hide Thinned, Continues, Undisturbed, TurnMade, CarriedOut, Consistent, RowOk, GenOk;
    ThinnedOutputs(a, middle, epoch);
    forall x | x in a.gens && x in b.gens && a.gens[x].outputs != []
      ensures || b.gens[x].outputs == a.gens[x].outputs
              || (x in ids && TurnMade(a.gens[x], b.gens[x], DraftOf(drafts, x), predict, eos))
    {
      if x in RowIds(rows) {
        var plan :| plan in rows && plan.id == x;
        if x !in ids { FilledQuietly(middle, b, plan, predict, eos); }
      }
    }
  }

  // ---- prefill batches and fused steps ----------------------------------------------------

  // Chunks that the scheduler may plan: distinct prefilling requests, within what remains.
  predicate PrefillPlans(gens: map<string, Generation>, active: set<string>, plans: seq<Plan>) {
    && (forall i, j | 0 <= i < j < |plans| :: plans[i].id != plans[j].id)
    && forall plan | plan in plans ::
         && plan.id in active && plan.id in gens && gens[plan.id].phase.Prefilling?
         && plan.count > 0 && gens[plan.id].prefilled + plan.count <= |gens[plan.id].PrefillIds()|
  }

  // Every planned row is a whole, fresh prefill.
  predicate AllFresh(gens: map<string, Generation>, plans: seq<Plan>) {
    forall plan | plan in plans ::
      plan.id in gens && gens[plan.id].prefilled == 0 && plan.count == |gens[plan.id].PrefillIds()|
  }

  lemma PrefillPlansOk(st: State, plans: seq<Plan>, predict: seq<Slot> -> Token, eos: set<Token>)
    requires Inv(st, predict, eos) && PrefillPlans(st.gens, st.active, plans)
    ensures PlansOk(st, plans)
  {
    forall plan | plan in plans ensures PlanOk(st, plan) { PrefillRowFacts(st, plan.id, predict, eos); }
  }

  lemma PrefillRowsReady(a: State, b: State, plans: seq<Plan>, rows: seq<Plan>, replay: bool, epoch: nat)
    requires Thinned(a, b, epoch) && rows == StillActive(plans, b.active) && PrefillPlans(a.gens, a.active, plans)
    requires forall plan | plan in rows :: Ready(b, plan.id, plan.count)
    requires replay ==> AllFresh(a.gens, plans)
    ensures RowsOk(b, rows, map[], replay) && PrefillPlans(b.gens, b.active, rows)
  {
    hide Ready;
    StillActiveDistinct(plans, b.active);
    ThinnedFacts(a, b, epoch);
  }

  lemma RowsAreActive(st: State, rows: seq<Plan>)
    requires RowsOk(st, rows, map[], false)
    ensures forall plan | plan in rows :: plan.id in st.active
  {
    forall plan | plan in rows ensures plan.id in st.active { RowReadyFacts(st, plan); }
  }

  // Decode rows that found room earlier still have it after the prefill rows found theirs.
  lemma FusedRowsReady(a: State, b: State, rows: seq<Plan>, left: seq<Plan>, plans: seq<Plan>, epoch: nat)
    requires Thinned(a, b, epoch) && Bystanders(a, b, plans) && left == StillActive(rows, b.active)
    requires RowsOk(a, rows, map[], false) && PrefillPlans(a.gens, a.active, plans)
    requires forall plan | plan in rows :: plan.id in a.gens && a.gens[plan.id].phase.Decoding?
    ensures RowsOk(b, left, map[], false)
    ensures forall plan | plan in left :: plan.id in b.gens && b.gens[plan.id].phase.Decoding?
  {
    hide Ready, Undisturbed, StillActive;
    StillActiveDistinct(rows, b.active);
    ThinnedFacts(a, b, epoch);
    forall plan | plan in left ensures RowReady(b, plan) && RowShape(b.gens, plan, map[], false) {
      assert plan in rows && RowReady(a, plan);
      RowReadyFacts(a, plan);
      assert plan.id !in RowIds(plans);
      ReadyKept(a, b, plan.id, plan.count);
    }
  }

  // Decode and prefill rows of one forward pass.
  lemma FusedBatchOk(st: State, rows: seq<Plan>, plans: seq<Plan>)
    requires RowsOk(st, rows, map[], false) && RowsOk(st, plans, map[], false)
    requires forall plan | plan in rows :: plan.id in st.gens && st.gens[plan.id].phase.Decoding?
    requires forall plan | plan in plans :: plan.id in st.gens && st.gens[plan.id].phase.Prefilling?
    ensures RowsOk(st, rows + plans, map[], false)
  {
    hide Ready;
    forall i, j | 0 <= i < |rows| && 0 <= j < |plans| ensures rows[i].id != plans[j].id {
      assert rows[i] in rows && plans[j] in plans;
    }
  }

  // With a shared forward pass the decode rows have a turn, and the chunks give nothing more.
  lemma FusedTurned(a: State, middle: State, b: State, rows: seq<Plan>, left: seq<Plan>, viable: seq<Plan>, epoch: nat,
                    predict: seq<Slot> -> Token, eos: set<Token>)
    requires Thinned(a, middle, epoch) && Inv(middle, predict, eos) && Moved(middle, b, RowIds(left + viable))
    requires AllTurned(middle.gens, b.gens, left + viable, map[], predict, eos)
    requires AllCarriedOut(middle, b, left + viable, eos)
    requires left == StillActive(rows, middle.active) && forall plan | plan in left :: plan.id in middle.gens
    requires PrefillPlans(middle.gens, middle.active, viable)
    ensures Turned(a.gens, b.gens, RowIds(rows), map[], predict, eos)
  {
    hide Inv, Thinned, Moved, AllTurned, AllCarriedOut, Turned, StillActive;
    TurnedByRun(a, middle, b, left + viable, RowIds(rows), map[], epoch, predict, eos);
  }

  lemma FallbackTurned(a: State, middle: State, b: State, ids: set<string>, epoch: nat, predict: seq<Slot> -> Token,
                       eos: set<Token>)
    requires Inv(a, predict, eos) && Thinned(a, middle, epoch) && Turned(middle.gens, b.gens, {}, map[], predict, eos)
    ensures Turned(a.gens, b.gens, ids, map[], predict, eos)
  {
    hide Inv, Thinned, Turned, Evolves;
    ThinnedTurned(a, middle, epoch, predict, eos);
    BatchThinned(a, middle, epoch, predict, eos);
    ThinnedOutputs(a, middle, epoch);
    TurnedOn(a.gens, middle.gens, b.gens, {}, {}, map[], predict, eos);
    TurnedMore(a.gens, b.gens, {} + {}, ids, map[], map[], predict, eos);
  }

  lemma BatchThinned(a: State, b: State, epoch: nat, predict: seq<Slot> -> Token, eos: set<Token>)
    requires Inv(a, predict, eos) && Thinned(a, b, epoch)
    ensures Evolves(a.gens, b.gens) && b.active <= a.active
  {
    hide Inv, Continues, Oldest;
    forall x | x in a.active ensures x in a.gens && a.gens[x].Live() { ActiveIsLive(a, x, predict, eos); }
    ThinnedIsEvolution(a, b, epoch);
  }

  lemma PlannedArePrefilling(st: State, plans: seq<Plan>)
    requires PrefillPlans(st.gens, st.active, plans)
    ensures forall plan | plan in plans ::
              plan.id in st.active && plan.id in st.gens && st.gens[plan.id].phase.Prefilling?
  {
  }

  // ---- the serving loop -------------------------------------------------------------------

  // Who drafts: exactly the greedy rows for which the proposer has an answer, no longer than the
  // speculation depth and leaving room for the target's own token.
  ghost predicate Drafting(gens: map<string, Generation>, decoding: set<string>, offers: map<string, seq<Token>>,
                           drafts: map<string, seq<Token>>, depth: nat)
  {
    && (forall x | x in drafts :: x in offers && drafts[x] == offers[x])
    && (forall x :: x in drafts <==>
          && x in decoding && x in gens && gens[x].greedy && x in offers && 0 < |offers[x]| <= depth
          && |gens[x].outputs| + |offers[x]| + 1 <= gens[x].maxNew)
  }

  lemma DraftingIsOk(gens: map<string, Generation>, decoding: set<string>, offers: map<string, seq<Token>>,
                     drafts: map<string, seq<Token>>, depth: nat)
    requires Drafting(gens, decoding, offers, drafts, depth)
    ensures DraftsOk(gens, decoding, drafts, depth)
    ensures drafts.Keys <= decoding && forall x | x in drafts :: |drafts[x]| <= depth
  {
  }

  lemma NobodyDrafts(gens: map<string, Generation>, decoding: set<string>, offers: map<string, seq<Token>>, depth: nat)
    requires depth == 0 || decoding == {}
    ensures Drafting(gens, decoding, offers, map[], depth)
  {
  }

  ghost predicate DraftsOk(gens: map<string, Generation>, decoding: set<string>, drafts: map<string, seq<Token>>,
                           depth: nat)
  {
    forall x | x in drafts ::
      && x in decoding && x in gens && gens[x].greedy && 0 < |drafts[x]| <= depth
      && |gens[x].outputs| + |drafts[x]| + 1 <= gens[x].maxNew
  }

  lemma AllActive(st: State, predict: seq<Slot> -> Token, eos: set<Token>)
    requires Inv(st, predict, eos)
    ensures st.active <= st.gens.Keys
  {
    forall x | x in st.active ensures x in st.gens { ActiveIsLive(st, x, predict, eos); }
  }

  lemma MovedEvolves(a: State, b: State, ids: set<string>)
    requires Moved(a, b, ids)
    ensures Evolves(a.gens, b.gens)
  {
  }

  lemma NoRows(st: State)
    ensures RowsOk(st, [], map[], false)
  {
  }
}
