// What one scheduling iteration does for the requests it serves
// (engine/batching/continuous_batching.py, `step` and `speculative_decode_step`).
module Iterations {
  import opened Common
  import opened Paging
  import opened PagedStore
  import opened GreedyDecoding
  import opened Lifecycle
  import opened Arrival
  import opened Yielding
  import opened CapacityFacts
  import opened Prospects
  import opened Batching
  import opened PrefillPlanning
  import opened Admission
  import opened Histories

  // How a decoding request fared: it got tokens, gave way to an older one, or was alone and
  // lacked memory.
  ghost predicate Fared(a: State, b: State, id: string) {
    && id in a.gens && id in b.gens
    && (|| a.gens[id].outputs < b.gens[id].outputs
        || (b.gens[id].phase.Waiting? && !Oldest(a, id))
        || (b.gens[id].phase.Failed? && b.gens[id].reason.KvPoolExhausted? && b.active == {}))
  }

  ghost predicate SomeDecoding(gens: map<string, Generation>, active: set<string>) {
    exists id | id in active :: id in gens && gens[id].phase.Decoding?
  }

  ghost predicate Untouched(a: State, b: State, id: string) {
    id in a.gens && id in b.gens && id in b.active && b.gens[id] == a.gens[id]
  }

  // One of several decode batches of an iteration. Requests whose turn it is fare somehow;
  // the others fare somehow, or stay as they are.
  lemma OneTurn(a: State, turn: State, now: State, group: set<string>, drafts: map<string, seq<Token>>, id: string,
                due: bool, eos: set<Token>, epoch: nat, predict: seq<Slot> -> Token)
    requires Inv(turn, predict, eos) && Evolves(a.gens, turn.gens) && turn.gens.Keys == a.gens.Keys
    requires turn.active <= a.active <= a.gens.Keys && id in a.gens && a.gens[id].phase.Decoding?
    requires Fared(a, turn, id) || Untouched(a, turn, id)
    requires BatchProgress(turn, now, DecodeTasks(group, drafts), eos, epoch)
    requires due && Untouched(a, turn, id) ==> id in group
    ensures Fared(a, now, id) || (!due && Untouched(a, now, id))
  {
    hide Inv, CarriedOut, GaveWay, Oldest, Continues;
    if Untouched(a, turn, id) {
      if id in group {
        var plan := Plan(id, 1 + |DraftOf(drafts, id)|);
        assert plan in DecodeTasks(group, drafts);
        if CarriedOut(turn, now, plan, eos) {
          CarriedOutGrows(turn, now, plan, eos);
        } else {
          YieldFares(a, turn, now, id, epoch);
        }
      } else {
        assert forall plan | plan in DecodeTasks(group, drafts) :: plan.id != id;
        if id !in now.active { YieldFares(a, turn, now, id, epoch); }
      }
    } else {
      FaredStays(a, turn, now, DecodeTasks(group, drafts), id, eos, epoch, predict);
    }
  }

  lemma FaredStays(a: State, turn: State, now: State, tasks: set<Plan>, id: string, eos: set<Token>, epoch: nat,
                   predict: seq<Slot> -> Token)
    requires Inv(turn, predict, eos) && Fared(a, turn, id) && BatchProgress(turn, now, tasks, eos, epoch)
    ensures Fared(a, now, id)
  {
    hide RowOk, GenOk, CarriedOut, GaveWay, Consistent, Oldest;
    if turn.gens[id].phase.Waiting? { assert Placed(turn, id); }
  }

  lemma CarriedOutGrows(a: State, b: State, plan: Plan, eos: set<Token>)
    requires CarriedOut(a, b, plan, eos) && a.gens[plan.id].phase.Decoding?
    ensures plan.id in b.gens && a.gens[plan.id].outputs < b.gens[plan.id].outputs
  {
    hide Advanced;
    AdvancedGrows(a.gens[plan.id], b.gens[plan.id], plan.count, eos);
  }

  lemma AdvancedGrows(g: Generation, h: Generation, most: nat, eos: set<Token>)
    requires Advanced(g, h, most, eos)
    ensures g.outputs < h.outputs
  {
    var emitted: seq<Token> :| emitted != [] && |emitted| <= most && h == Emitted(g, emitted, eos);
    assert h.outputs == g.outputs + emitted;
  }

  lemma YieldFares(a: State, turn: State, now: State, id: string, epoch: nat)
    requires GaveWay(turn, now, id, epoch) && Evolves(a.gens, turn.gens) && turn.active <= a.active <= a.gens.Keys
    requires Untouched(a, turn, id)
    ensures Fared(a, now, id)
  {
    hide Continues;
    if Oldest(a, id) { OldestAmongFewer(a, turn, id); }
  }

  lemma OldestAmongFewer(a: State, b: State, id: string)
    requires Oldest(a, id) && Evolves(a.gens, b.gens) && b.active <= a.active && id in b.active
    ensures Oldest(b, id)
  {
    forall x | x in b.active ensures x in b.gens && KeyOf(b.gens, x) == KeyOf(a.gens, x) { }
  }

  // ---- speculative rounds of different depths ---------------------------------------------

  // Before the round of this depth: whoever had a turn fared somehow, the others wait for it.
  ghost predicate Taking(a: State, now: State, decoding: set<string>, drafts: map<string, seq<Token>>, depth: nat) {
    && Evolves(a.gens, now.gens) && now.gens.Keys == a.gens.Keys && now.active <= a.active <= a.gens.Keys
    && (forall id | id in decoding :: id in a.gens && a.gens[id].phase.Decoding?)
    && forall id | id in decoding ::
         Fared(a, now, id) || (Untouched(a, now, id) && (id in drafts ==> |drafts[id]| >= depth))
  }

  lemma StartTaking(st: State, decoding: set<string>, drafts: map<string, seq<Token>>, depth: nat)
    requires DraftsOk(st.gens, decoding, drafts, depth) && decoding <= st.active <= st.gens.Keys
    requires forall id | id in decoding :: st.gens[id].phase.Decoding?
    ensures Taking(st, st, decoding, drafts, 1)
    ensures forall x | x in drafts :: |drafts[x]| < depth + 1
  {
    EvolvesSelf(st.gens);
  }

  lemma TurnTaken(a: State, turn: State, now: State, decoding: set<string>, drafts: map<string, seq<Token>>, depth: nat,
                  group: set<string>, eos: set<Token>, epoch: nat, predict: seq<Slot> -> Token)
    requires Inv(turn, predict, eos) && Taking(a, turn, decoding, drafts, depth)
    requires BatchProgress(turn, now, DecodeTasks(group, drafts), eos, epoch)
    requires forall x |
               && x in drafts && x in turn.active && x in turn.gens && turn.gens[x].phase.Decoding?
               && |drafts[x]| == depth ::
               x in group
    ensures Taking(a, now, decoding, drafts, depth + 1)
  {
    hide Inv, Fared, CarriedOut, GaveWay, Continues;
    EvolvesOn(a.gens, turn.gens, now.gens);
    forall id | id in decoding
      ensures Fared(a, now, id) || (Untouched(a, now, id) && (id in drafts ==> |drafts[id]| >= depth + 1))
    {
      var due := id in drafts && |drafts[id]| == depth;
      OneTurn(a, turn, now, group, drafts, id, due, eos, epoch, predict);
      if !Fared(a, now, id) { FaredOnly(a, turn, now, DecodeTasks(group, drafts), id, eos, epoch, predict); }
    }
  }

  lemma FaredOnly(a: State, turn: State, now: State, tasks: set<Plan>, id: string, eos: set<Token>, epoch: nat,
                  predict: seq<Slot> -> Token)
    requires Inv(turn, predict, eos) && BatchProgress(turn, now, tasks, eos, epoch) && !Fared(a, now, id)
    ensures !Fared(a, turn, id)
  {
    if Fared(a, turn, id) { FaredStays(a, turn, now, tasks, id, eos, epoch, predict); }
  }

  // The ordinary step takes everybody who has no draft.
  lemma LastTurn(a: State, turn: State, now: State, decoding: set<string>, drafts: map<string, seq<Token>>, depth: nat,
                 ordinary: set<string>, eos: set<Token>, epoch: nat, predict: seq<Slot> -> Token)
    requires Inv(turn, predict, eos) && Taking(a, turn, decoding, drafts, depth)
    requires BatchProgress(turn, now, DecodeTasks(ordinary, map[]), eos, epoch)
    requires forall x | x in drafts :: |drafts[x]| < depth
    requires forall x |
               && x in decoding && x !in drafts && x in turn.active && x in turn.gens
               && turn.gens[x].phase.Decoding? ::
               x in ordinary
    ensures Evolves(a.gens, now.gens) && now.gens.Keys == a.gens.Keys && now.active <= a.active
    ensures forall id | id in decoding :: Fared(a, now, id)
  {
    hide Inv, Fared, CarriedOut, GaveWay, Continues;
    EvolvesOn(a.gens, turn.gens, now.gens);
    forall id | id in decoding ensures Fared(a, now, id) {
      OneTurn(a, turn, now, ordinary, map[], id, id !in drafts, eos, epoch, predict);
      if !Fared(a, now, id) { FaredOnly(a, turn, now, DecodeTasks(ordinary, map[]), id, eos, epoch, predict); }
    }
  }

  // ---- the oldest request -----------------------------------------------------------------

  // A decoding request's part of an iteration: its pending token and its proposals.
  function TurnOf(drafts: map<string, seq<Token>>, id: string): Plan {
    Plan(id, 1 + |DraftOf(drafts, id)|)
  }

  // It got at least one token if it could have room for this alone, and otherwise it failed.
  ghost predicate TokenOrFailure(a: State, b: State, turn: Plan) {
    && turn.id in a.gens && turn.id in b.gens
    && if WouldServe(a, turn) then a.gens[turn.id].outputs < b.gens[turn.id].outputs else LacksMemory(b, turn.id)
  }

  // So far in a speculative step the oldest request had its turn, or waits for it.
  ghost predicate OldestTaking(a: State, now: State, decoding: set<string>, drafts: map<string, seq<Token>>, depth: nat)
  {
    forall x | Oldest(a, x) && x in decoding ::
      TokenOrFailure(a, now, TurnOf(drafts, x)) || (Waited(a, now, x) && (x in drafts ==> |drafts[x]| >= depth))
  }

  lemma StartOldest(st: State, decoding: set<string>, drafts: map<string, seq<Token>>)
    requires forall x | x in drafts :: drafts[x] != []
    ensures OldestTaking(st, st, decoding, drafts, 1)
  {
    hide Servable;
  }

  lemma OldestTook(a: State, turn: State, now: State, decoding: set<string>, drafts: map<string, seq<Token>>,
                   depth: nat, group: set<string>, eos: set<Token>)
    requires OldestTaking(a, turn, decoding, drafts, depth)
    requires Evolves(a.gens, turn.gens) && Evolves(turn.gens, now.gens) && turn.active <= a.active
    requires forall x | x in decoding :: x in a.gens && a.gens[x].phase.Decoding?
    requires OldestDecided(turn, now, DecodeTasks(group, drafts), eos)
    requires forall x | x !in group && Oldest(turn, x) :: Waited(turn, now, x)
    requires forall x |
               && x in drafts && x in turn.active && x in turn.gens && turn.gens[x].phase.Decoding?
               && |drafts[x]| == depth ::
               x in group
    ensures OldestTaking(a, now, decoding, drafts, depth + 1)
  {
    hide Oldest, Waited, Continues, TokenOrFailure, OldestDecided;
    forall x | Oldest(a, x) && x in decoding
      ensures || TokenOrFailure(a, now, TurnOf(drafts, x))
              || (Waited(a, now, x) && (x in drafts ==> |drafts[x]| >= depth + 1))
    {
      if TokenOrFailure(a, turn, TurnOf(drafts, x)) {
        DecidedStays(a, turn, now, TurnOf(drafts, x));
      } else {
        OneOfOldest(a, turn, now, drafts, group, x, eos);
        if x !in group { WaitedFacts(a, turn, x); }
      }
    }
  }

  lemma WaitedFacts(a: State, b: State, id: string)
    requires Waited(a, b, id)
    ensures id in a.gens && id in b.gens && id in b.active && b.gens[id] == a.gens[id]
  {
  }

  lemma OneOfOldest(a: State, turn: State, now: State, drafts: map<string, seq<Token>>, group: set<string>, id: string,
                    eos: set<Token>)
    requires Oldest(a, id) && Waited(a, turn, id) && a.gens[id].phase.Decoding?
    requires Evolves(a.gens, turn.gens) && turn.active <= a.active
    requires OldestDecided(turn, now, DecodeTasks(group, drafts), eos)
    requires forall x | x !in group && Oldest(turn, x) :: Waited(turn, now, x)
    ensures if id in group then TokenOrFailure(a, now, TurnOf(drafts, id)) else Waited(a, now, id)
  {
    hide Servable, Continues, CarriedOut;
    OldestAmongFewer(a, turn, id);
    if id in group {
      var plan := TurnOf(drafts, id);
      assert plan in DecodeTasks(group, drafts) && plan.id == id;
      assert WouldServe(turn, plan) <==> WouldServe(a, plan);
      assert if WouldServe(turn, plan) then CarriedOut(turn, now, plan, eos) else LacksMemory(now, id);
      if WouldServe(a, plan) { CarriedOutGrows(turn, now, plan, eos); }
    }
  }

  lemma DecidedStays(a: State, b: State, c: State, turn: Plan)
    requires TokenOrFailure(a, b, turn) && Evolves(b.gens, c.gens)
    ensures TokenOrFailure(a, c, turn)
  {
    hide WouldServe;
    assert Continues(b.gens[turn.id], c.gens[turn.id]);
  }

  // After the ordinary step the oldest request had its turn.
  lemma OldestTookTurn(a: State, turn: State, now: State, decoding: set<string>, drafts: map<string, seq<Token>>,
                       depth: nat, ordinary: set<string>, eos: set<Token>)
    requires OldestTaking(a, turn, decoding, drafts, depth) && forall x | x in drafts :: |drafts[x]| < depth
    requires Evolves(a.gens, turn.gens) && Evolves(turn.gens, now.gens) && turn.active <= a.active
    requires forall x | x in decoding :: x in a.gens && a.gens[x].phase.Decoding?
    requires OldestDecided(turn, now, DecodeTasks(ordinary, map[]), eos)
    requires forall x | x !in ordinary && Oldest(turn, x) :: Waited(turn, now, x)
    requires forall x |
               && x in decoding && x !in drafts && x in turn.active && x in turn.gens
               && turn.gens[x].phase.Decoding? ::
               x in ordinary
    ensures OldestDecoded(a, now, false, decoding, drafts)
  {
    hide Oldest, Waited, Continues, TokenOrFailure, OldestDecided;
    forall x | Oldest(a, x) && x in decoding ensures TokenOrFailure(a, now, TurnOf(drafts, x)) {
      if TokenOrFailure(a, turn, TurnOf(drafts, x)) {
        DecidedStays(a, turn, now, TurnOf(drafts, x));
      } else {
        WaitedFacts(a, turn, x);
        OneOfOldest(a, turn, now, map[], ordinary, x, eos);
        assert TurnOf(map[], x) == TurnOf(drafts, x);
      }
    }
  }

  // What the decode part decided for the oldest request. With fused steps it only finds room.
  ghost predicate OldestDecoded(a: State, b: State, fused: bool, decoding: set<string>, drafts: map<string, seq<Token>>)
  {
    forall x | Oldest(a, x) && x in decoding ::
      if fused then x in b.active <==> WouldServe(a, TurnOf(drafts, x)) else TokenOrFailure(a, b, TurnOf(drafts, x))
  }

  lemma OldestOrdinary(a: State, b: State, decoding: set<string>, eos: set<Token>)
    requires OldestDecided(a, b, DecodeTasks(decoding, map[]), eos) && b.gens.Keys == a.gens.Keys
    requires forall x | x in decoding :: x in a.gens && a.gens[x].phase.Decoding?
    ensures OldestDecoded(a, b, false, decoding, map[])
  {
    hide Oldest, CarriedOut, WouldServe;
    forall x | Oldest(a, x) && x in decoding ensures TokenOrFailure(a, b, TurnOf(map[], x)) {
      var plan := TurnOf(map[], x);
      assert plan in DecodeTasks(decoding, map[]);
      if WouldServe(a, plan) { CarriedOutGrows(a, b, plan, eos); }
    }
  }

  lemma OldestForFusion(a: State, b: State, decoding: set<string>, order: seq<string>, plans: seq<Plan>)
    requires DecodeOrder(decoding, order, plans, map[]) && OldestServed(a, b, plans)
    ensures OldestDecoded(a, b, true, decoding, map[])
  {
    hide Oldest, WouldServe;
    forall x | Oldest(a, x) && x in decoding ensures x in b.active <==> WouldServe(a, TurnOf(map[], x)) {
      var i :| 0 <= i < |order| && order[i] == x;
      assert plans[i] in plans;
    }
  }

  lemma ProgressFacts(a: State, b: State, tasks: set<Plan>, eos: set<Token>, epoch: nat)
    requires BatchProgress(a, b, tasks, eos, epoch)
    ensures Evolves(a.gens, b.gens) && b.gens.Keys == a.gens.Keys
  {
  }

  lemma ProgressTicked(a: State, first: nat, middle: State, second: nat, b: State, third: nat, tasks: set<Plan>,
                       eos: set<Token>, predict: seq<Slot> -> Token)
    requires Inv(a, predict, eos) && Thinned(a, middle, first) && exists e :: BatchProgress(middle, b, tasks, eos, e)
    requires Ticked(a, first, middle, second) && Ticked(middle, second, b, third)
    ensures Ticked(a, first, b, third)
  {
    hide Inv, Ticked, Evolves, Thinned, CarriedOut, GaveWay;
    BatchThinned(a, middle, first, predict, eos);
    ThinnedFrame(a, middle, first);
    TickedOn(a, first, middle, second, b, third);
  }

  lemma NobodyDecodes(st: State)
    requires DecodingIn(st) == {}
    ensures OldestDecoded(st, st, false, {}, map[])
  {
  }

  lemma NoRowsCarriedOut(a: State, b: State, eos: set<Token>)
    ensures OldestCarriedOut(a, b, [], eos)
  {
  }

  // The oldest request's decode row is carried out in the shared forward pass.
  ghost predicate OldestCarriedOut(a: State, b: State, rows: seq<Plan>, eos: set<Token>) {
    forall x, plan | Oldest(a, x) && plan in rows && plan.id == x :: CarriedOut(a, b, plan, eos)
  }

  lemma OldestHasRow(a: State, middle: State, rows: seq<Plan>, left: seq<Plan>, plans: seq<Plan>)
    requires OldestServed(a, middle, plans) && left == StillActive(rows, middle.active)
    requires forall plan | plan in rows :: plan.id in a.gens && a.gens[plan.id].phase.Decoding?
    requires forall plan | plan in plans :: plan.id in a.gens && a.gens[plan.id].phase.Prefilling?
    ensures forall x, plan | Oldest(a, x) && plan in rows && plan.id == x :: plan in left
  {
    hide Oldest, WouldServe, StillActive;
  }

  lemma OldestInRun(a: State, middle: State, b: State, rows: seq<Plan>, left: seq<Plan>, plans: seq<Plan>,
                    eos: set<Token>, epoch: nat)
    requires Thinned(a, middle, epoch) && AllCarriedOut(middle, b, left + plans, eos)
    requires left == StillActive(rows, middle.active)
    requires forall x, plan | Oldest(a, x) && plan in rows && plan.id == x :: plan in left
    ensures OldestCarriedOut(a, b, rows, eos)
  {
    hide Oldest, CarriedOut, Thinned;
    forall x, plan | Oldest(a, x) && plan in rows && plan.id == x ensures CarriedOut(a, b, plan, eos) {
      assert plan in left + plans;
      CarriedOutLater(a, middle, b, plan, eos, epoch);
    }
  }

  // ---- a whole iteration ------------------------------------------------------------------

  // The decode part. With fused steps its rows only found their room.
  ghost predicate Decoded(a: State, b: State, fused: bool, rows: seq<Plan>, epoch: nat) {
    && Evolves(a.gens, b.gens) && b.gens.Keys == a.gens.Keys
    && if fused then
         && Thinned(a, b, epoch)
         && forall id :: id in RowIds(rows) <==> id in b.active && id in b.gens && b.gens[id].phase.Decoding?
       else
         rows == [] && forall id | id in a.active && id in a.gens && a.gens[id].phase.Decoding? :: Fared(a, b, id)
  }

  // The states an iteration passes through and what it decided on the way.
  datatype Trail = Trail(
    decoded: State, joined: State, started: State, fused: bool, rows: seq<Plan>, k: nat, admitted: seq<string>,
    visited: seq<string>, plans: seq<Plan>, epoch: nat, middle: nat, later: nat, drafts: map<string, seq<Token>>)

  // Decode, admit in queue order, start exact hits, plan chunks in turn, and run what was
  // planned, together with the decode rows if steps are fused.
  ghost predicate Iterated(a: State, t: Trail, b: State, capacity: nat, chunk: nat, budget: nat,
                           predict: seq<Slot> -> Token, eos: set<Token>)
  {
    && Decoded(a, t.decoded, t.fused, t.rows, t.epoch)
    && Admitting(t.decoded, t.joined, t.k, t.admitted, capacity, predict)
    && HitsDone(t.joined, t.started, t.admitted, eos)
    && RoundRobin(t.started.gens, t.visited, t.plans, chunk, budget)
    && BatchProgress(t.started, b, Tasks(t.rows + t.plans), eos, t.later)
    && OldestDecoded(a, t.decoded, t.fused, DecodingIn(a), t.drafts)
    && OldestCarriedOut(t.started, b, t.rows, eos)
    && OldestDecided(t.started, b, Tasks(t.plans), eos)
  }

  ghost function DecodingIn(st: State): set<string> {
    set id | id in st.active && id in st.gens && st.gens[id].phase.Decoding?
  }

  lemma IterationDone(a: State, t: Trail, b: State, capacity: nat, chunk: nat, budget: nat, predict: seq<Slot> -> Token,
                      eos: set<Token>)
    requires Decoded(a, t.decoded, t.fused, t.rows, t.epoch)
    requires Admitting(t.decoded, t.joined, t.k, t.admitted, capacity, predict)
    requires HitsDone(t.joined, t.started, t.admitted, eos)
    requires RoundRobin(t.started.gens, t.visited, t.plans, chunk, budget)
    requires BatchProgress(t.started, b, Tasks(t.rows + t.plans), eos, t.later)
    requires OldestDecoded(a, t.decoded, t.fused, DecodingIn(a), t.drafts)
    requires OldestCarriedOut(t.started, b, t.rows, eos)
    requires OldestDecided(t.started, b, Tasks(t.plans), eos)
    ensures Iterated(a, t, b, capacity, chunk, budget, predict, eos)
    ensures Evolves(a.gens, b.gens)
  {
    hide Continues, CarriedOut, GaveWay, Fared, Thinned, QueueServed, Undisturbed, RoundRobin, OldestDecoded,
         OldestCarriedOut, OldestDecided;
    EvolvesOn(a.gens, t.decoded.gens, t.joined.gens);
    EvolvesOn(a.gens, t.joined.gens, t.started.gens);
    EvolvesOn(a.gens, t.started.gens, b.gens);
  }

  // In an iteration as a whole only who decoded at its start gets tokens behind some it has: in
  // one turn, and all that this turn gives.
  lemma IterationTurned(a: State, t: Trail, b: State, predict: seq<Slot> -> Token, eos: set<Token>)
    requires Decoded(a, t.decoded, t.fused, t.rows, t.epoch) && (t.fused ==> t.drafts == map[])
    requires Evolves(t.decoded.gens, t.started.gens) && t.started.gens.Keys == t.decoded.gens.Keys
    requires Turned(a.gens, t.decoded.gens, if t.fused then {} else DecodingIn(a), t.drafts, predict, eos)
    requires Turned(t.decoded.gens, t.started.gens, {}, map[], predict, eos)
    requires Turned(t.started.gens, b.gens, RowIds(t.rows), map[], predict, eos)
    requires forall plan | plan in t.rows :: plan.id in t.started.gens && t.started.gens[plan.id].phase.Decoding?
    ensures Turned(a.gens, b.gens, DecodingIn(a), t.drafts, predict, eos)
  {
    hide Turned, Fared, Thinned, Continues;
    var ids := if t.fused then {} else DecodingIn(a);
    TurnedMore(t.decoded.gens, t.started.gens, {}, {}, map[], t.drafts, predict, eos);
    TurnedOn(a.gens, t.decoded.gens, t.started.gens, ids, {}, t.drafts, predict, eos);
    if t.fused { RowsDecoded(a, t); }
    TurnedMore(t.started.gens, b.gens, RowIds(t.rows), RowIds(t.rows), map[], t.drafts, predict, eos);
    EvolvesOn(a.gens, t.decoded.gens, t.started.gens);
    assert ids + {} == ids;
    TurnedOn(a.gens, t.started.gens, b.gens, ids, RowIds(t.rows), t.drafts, predict, eos);
    TurnedMore(a.gens, b.gens, ids + RowIds(t.rows), DecodingIn(a), t.drafts, t.drafts, predict, eos);
  }

  lemma RowsDecoded(a: State, t: Trail)
    requires Decoded(a, t.decoded, true, t.rows, t.epoch)
    ensures RowIds(t.rows) <= DecodingIn(a)
  {
    ThinnedFacts(a, t.decoded, t.epoch);
  }

  lemma AllFared(a: State, b: State, decoding: set<string>, epoch: nat)
    requires Evolves(a.gens, b.gens) && b.gens.Keys == a.gens.Keys
    requires forall id | id in a.active && id in a.gens && a.gens[id].phase.Decoding? :: id in decoding
    requires forall id | id in decoding :: Fared(a, b, id)
    ensures Decoded(a, b, false, [], epoch)
  {
    hide Fared, Continues;
  }

  lemma OrdinaryStep(a: State, b: State, decoding: set<string>, eos: set<Token>, epoch: nat,
                     predict: seq<Slot> -> Token)
    requires Inv(a, predict, eos) && BatchProgress(a, b, DecodeTasks(decoding, map[]), eos, epoch)
    requires forall id :: id in decoding <==> id in a.active && id in a.gens && a.gens[id].phase.Decoding?
    ensures Decoded(a, b, false, [], epoch)
  {
    hide Inv, Fared, CarriedOut, GaveWay, Continues;
    AllActive(a, predict, eos);
    EvolvesSelf(a.gens);
    forall id | id in decoding ensures Fared(a, b, id) {
      OneTurn(a, a, b, decoding, map[], id, true, eos, epoch, predict);
    }
  }

  // Every decoding request that is still active found its room.
  lemma WaitingForFusion(a: State, b: State, decoding: set<string>, order: seq<string>, plans: seq<Plan>,
                         rows: seq<Plan>, epoch: nat)
    requires Thinned(a, b, epoch) && Evolves(a.gens, b.gens)
    requires DecodeOrder(decoding, order, plans, map[]) && rows == StillActive(plans, b.active)
    requires forall id :: id in decoding <==> id in a.active && id in a.gens && a.gens[id].phase.Decoding?
    ensures Decoded(a, b, true, rows, epoch)
  {
    hide Continues, StillActive;
    ThinnedFacts(a, b, epoch);
    forall id ensures id in RowIds(rows) <==> id in b.active && id in b.gens && b.gens[id].phase.Decoding? {
      if id in RowIds(rows) {
        DecodePlansAre(decoding, order, plans, map[]);
        var plan :| plan in rows && plan.id == id;
        assert plan in plans;
      }
      if id in b.active && id in b.gens && b.gens[id].phase.Decoding? {
        var i :| 0 <= i < |order| && order[i] == id;
        assert plans[i] in plans && plans[i] in rows;
      }
    }
  }

  lemma DecodedAlone(a: State, b: State, rows: seq<Plan>, epoch: nat)
    requires Decoded(a, b, false, rows, epoch)
    ensures rows == [] && forall plans: seq<Plan> :: rows + plans == plans
  {
  }

  // An iteration without a plan changes nothing after admission.
  lemma NothingPlanned(st: State, eos: set<Token>, epoch: nat, predict: seq<Slot> -> Token)
    requires Inv(st, predict, eos)
    ensures BatchProgress(st, st, Tasks([]), eos, epoch) && OldestDecided(st, st, Tasks([]), eos)
  {
    hide Inv, Oldest, WouldServe;
    MovedNothing(st, predict, eos);
    RunIsProgress(st, st, [], eos, epoch);
  }

  lemma VisitedAreDistinct(order: seq<string>, visits: nat)
    requires Distinct(order) && visits <= |order|
    ensures Distinct(order[..visits]) && forall x | x in order[..visits] :: x in order
  {
  }

  // First in line among all requests that are not done, queued ones included.
  ghost predicate First(gens: map<string, Generation>, id: string) {
    && id in gens && gens[id].Live()
    && forall x | x in gens && gens[x].Live() && x != id :: Before(KeyOf(gens, id), KeyOf(gens, x))
  }

  // Progress: whatever else is queued, admitted or short of memory, the first request in line
  // gets at least one token in every iteration in which it decodes, exactly if it could get
  // the room for it with nobody else there. Otherwise it fails.
  lemma FirstProgresses(a: State, t: Trail, b: State, capacity: nat, chunk: nat, budget: nat,
                        predict: seq<Slot> -> Token, eos: set<Token>, id: string)
    requires Inv(a, predict, eos) && Inv(t.decoded, predict, eos) && Inv(t.started, predict, eos)
    requires Iterated(a, t, b, capacity, chunk, budget, predict, eos)
    requires First(a.gens, id) && a.gens[id].phase.Decoding?
    ensures TokenOrFailure(a, b, TurnOf(t.drafts, id))
  {
    hide Inv, Continues, CarriedOut, GaveWay, Fared, Thinned, QueueServed, Undisturbed, RoundRobin, First,
         TokenOrFailure, Oldest, WouldServe;
    FirstIsOldest(a, a, id, predict, eos);
    EvolvesOn(t.decoded.gens, t.joined.gens, t.started.gens);
    EvolvesOn(t.decoded.gens, t.started.gens, b.gens);
    assert id in DecodingIn(a);
    if !t.fused {
      DecidedStays(a, t.decoded, b, TurnOf(t.drafts, id));
    } else if id !in t.decoded.active {
      OldestLost(a, t.decoded, id, t.epoch);
      LackingStays(a, t.decoded, b, TurnOf(t.drafts, id));
    } else {
      KeptForFusion(a, t, capacity, predict, eos, id);
      EvolvesOn(a.gens, t.decoded.gens, t.started.gens);
      FirstIsOldest(a, t.started, id, predict, eos);
      var plan :| plan in t.rows && plan.id == id;
      CarriedOutGrows(t.started, b, plan, eos);
      GrownIsDecided(a, t.started, b, TurnOf(t.drafts, id));
    }
  }

  // And while it prefills: a chunk planned for it is filled exactly if it could get the room for
  // the chunk with nobody else there. Otherwise it fails.
  lemma FirstFills(a: State, t: Trail, b: State, capacity: nat, chunk: nat, budget: nat, predict: seq<Slot> -> Token,
                   eos: set<Token>, plan: Plan)
    requires Inv(t.started, predict, eos) && Iterated(a, t, b, capacity, chunk, budget, predict, eos)
    requires First(a.gens, plan.id) && plan in t.plans && plan.id in t.started.active
    ensures if WouldServe(t.started, plan) then CarriedOut(t.started, b, plan, eos) else LacksMemory(b, plan.id)
  {
    hide Inv, Evolves, First, Oldest, WouldServe, CarriedOut, Decoded, Admitting, HitsDone, RoundRobin, BatchProgress,
         OldestDecoded, OldestCarriedOut;
    StartedFrame(a, t, capacity, predict, eos);
    FirstIsOldest(a, t.started, plan.id, predict, eos);
    assert plan in Tasks(t.plans);
  }

  lemma StartedFrame(a: State, t: Trail, capacity: nat, predict: seq<Slot> -> Token, eos: set<Token>)
    requires Decoded(a, t.decoded, t.fused, t.rows, t.epoch)
    requires Admitting(t.decoded, t.joined, t.k, t.admitted, capacity, predict)
    requires HitsDone(t.joined, t.started, t.admitted, eos)
    ensures Evolves(a.gens, t.started.gens) && t.started.gens.Keys == a.gens.Keys
  {
    hide Continues, Fared, Thinned, Undisturbed, HitOk, Fitting, Fits;
    EvolvesOn(a.gens, t.decoded.gens, t.joined.gens);
    EvolvesOn(a.gens, t.joined.gens, t.started.gens);
  }

  // What the first request in line gets from an iteration.
  ghost predicate FirstServed(a: State, t: Trail, b: State, eos: set<Token>) {
    && (forall id | id in a.gens && First(a.gens, id) && a.gens[id].phase.Decoding? ::
          TokenOrFailure(a, b, TurnOf(t.drafts, id)))
    && forall plan | plan in t.plans && First(a.gens, plan.id) ::
         if WouldServe(t.started, plan) then CarriedOut(t.started, b, plan, eos) else LacksMemory(b, plan.id)
  }

  lemma FirstIsServed(a: State, t: Trail, b: State, capacity: nat, chunk: nat, budget: nat, predict: seq<Slot> -> Token,
                      eos: set<Token>)
    requires Inv(a, predict, eos) && Inv(t.decoded, predict, eos) && Inv(t.started, predict, eos)
    requires Iterated(a, t, b, capacity, chunk, budget, predict, eos)
    requires forall plan | plan in t.plans :: plan.id in t.started.active
    ensures FirstServed(a, t, b, eos)
  {
    hide Inv, Iterated, First, TokenOrFailure, WouldServe, CarriedOut, LacksMemory;
    forall id | id in a.gens && First(a.gens, id) && a.gens[id].phase.Decoding?
      ensures TokenOrFailure(a, b, TurnOf(t.drafts, id))
    {
      FirstProgresses(a, t, b, capacity, chunk, budget, predict, eos, id);
    }
    forall plan | plan in t.plans && First(a.gens, plan.id)
      ensures if WouldServe(t.started, plan) then CarriedOut(t.started, b, plan, eos) else LacksMemory(b, plan.id)
    {
      FirstFills(a, t, b, capacity, chunk, budget, predict, eos, plan);
    }
  }

  // What clients see of an iteration.
  lemma IterationSeen(a: State, t: Trail, b: State, capacity: nat, chunk: nat, budget: nat,
                      predict: seq<Slot> -> Token, eos: set<Token>, bounds: Bounds)
    requires Iterated(a, t, b, capacity, chunk, budget, predict, eos) && FirstServed(a, t, b, eos)
    requires Evolves(a.gens, b.gens) && Endings(a.gens, b.gens, bounds.capacity)
    ensures Iterates(a.gens, b.gens, bounds)
  {
    hide Decoded, Admitting, HitsDone, RoundRobin, BatchProgress, OldestDecoded, OldestCarriedOut, OldestDecided,
         Evolves, WouldServe, Endings, InFront, CarriedOut, First;
    StartedFrame(a, t, capacity, predict, eos);
    ProgressFacts(t.started, b, Tasks(t.rows + t.plans), eos, t.later);
    forall id | id in a.gens && InFront(a.gens, id) && a.gens[id].phase.Decoding?
      ensures || |a.gens[id].outputs| < |b.gens[id].outputs|
              || (b.gens[id].phase.Failed? && b.gens[id].reason.KvPoolExhausted?)
    {
      InFrontIsFirst(a.gens, id);
      assert TokenOrFailure(a, b, TurnOf(t.drafts, id));
    }
  }

  lemma InFrontIsFirst(gens: map<string, Generation>, id: string)
    requires InFront(gens, id)
    ensures First(gens, id)
  {
    forall x | x in gens && gens[x].Live() && x != id ensures Before(KeyOf(gens, id), KeyOf(gens, x)) {
      BeforeIsEarlier(gens, id, x);
    }
  }

  // If it could have room for its whole run, then also for each of its turns.
  lemma WholeRunServed(st: State, id: string, drafts: map<string, seq<Token>>, depth: nat, predict: seq<Slot> -> Token,
                       eos: set<Token>)
    requires Inv(st, predict, eos) && id in st.gens && st.gens[id].phase.Decoding?
    requires DraftsOk(st.gens, DecodingIn(st), drafts, depth)
    requires Servable(st, id, |st.gens[id].prompt| + st.gens[id].maxNew - 1)
    ensures WouldServe(st, TurnOf(drafts, id))
  {
    hide Consistent, Attainable, RowOk;
    assert id in st.active by { assert Placed(st, id); }
    ActiveRow(st, id, predict, eos);
    DecodingFacts(st.gens[id], predict, eos);
    var target := CommittedLength(st.gens[id]) + TurnOf(drafts, id).count;
    assert target <= |st.gens[id].prompt| + st.gens[id].maxNew - 1;
    AttainableForLess(Among(st.store, {id} + st.reserved), id, target, |st.gens[id].prompt| + st.gens[id].maxNew - 1);
  }

  lemma LackingStays(a: State, b: State, c: State, turn: Plan)
    requires LacksMemory(b, turn.id) && Evolves(b.gens, c.gens) && turn.id in a.gens && !WouldServe(a, turn)
    ensures TokenOrFailure(a, c, turn)
  {
    hide WouldServe;
    assert Continues(b.gens[turn.id], c.gens[turn.id]);
  }

  lemma GrownIsDecided(a: State, b: State, c: State, turn: Plan)
    requires turn.id in a.gens && turn.id in b.gens && b.gens[turn.id] == a.gens[turn.id] && turn.id in c.gens
    requires b.gens[turn.id].outputs < c.gens[turn.id].outputs && WouldServe(a, turn)
    ensures TokenOrFailure(a, c, turn)
  {
    hide WouldServe;
  }

  lemma FirstIsOldest(a: State, b: State, id: string, predict: seq<Slot> -> Token, eos: set<Token>)
    requires Inv(b, predict, eos) && First(a.gens, id) && (b == a || Evolves(a.gens, b.gens))
    requires b.gens.Keys == a.gens.Keys
    requires b.gens[id].phase.Decoding? || id in b.active
    ensures Oldest(b, id) && id in b.active && id in b.gens
  {
    hide RowOk, GenOk, Consistent;
    AllActive(b, predict, eos);
    assert Placed(b, id);
    forall x | x in b.active && x != id ensures Before(KeyOf(b.gens, id), KeyOf(b.gens, x)) {
      ActiveIsLive(b, x, predict, eos);
    }
  }

  // A decode row that waits for the shared forward pass is left alone meanwhile.
  lemma KeptForFusion(a: State, t: Trail, capacity: nat, predict: seq<Slot> -> Token, eos: set<Token>, id: string)
    requires Inv(t.decoded, predict, eos) && Decoded(a, t.decoded, t.fused, t.rows, t.epoch) && t.fused
    requires Admitting(t.decoded, t.joined, t.k, t.admitted, capacity, predict)
    requires HitsDone(t.joined, t.started, t.admitted, eos)
    requires id in a.active && id in a.gens && id in t.decoded.active && a.gens[id].phase.Decoding?
    ensures id in t.started.gens && t.started.gens[id] == a.gens[id] && id in t.started.active
    ensures id in RowIds(t.rows) && t.started.gens.Keys == a.gens.Keys
  {
    hide Inv, Continues, Undisturbed, HitOk, Fitting;
    ThinnedFacts(a, t.decoded, t.epoch);
    AdmittedHits(t.decoded, t.joined, t.k, t.admitted, capacity, predict, eos);
    assert RowKept(t.decoded, t.joined, id);
  }
}
