// Once nothing new arrives the engine runs dry: every iteration ends a request, admits one that
// had not yielded since, sends one back to the queue, or gets some active request further
// (engine/scheduler/scheduler.py, engine/batching/continuous_batching.py).
module Draining {
  import opened Common
  import opened Paging
  import opened PagedStore
  import opened GreedyDecoding
  import opened Lifecycle
  import opened Arrival
  import opened Yielding
  import opened CapacityFacts
  import opened Batching
  import opened PrefillPlanning
  import opened Admission
  import opened Iterations

  // ---- what is left to do -----------------------------------------------------------------

  // Tokens to generate and history to prefill.
  function Left(g: Generation): nat {
    (if |g.outputs| < g.maxNew then g.maxNew - |g.outputs| else 0) + Remaining(g)
  }

  ghost function Alive(st: State): set<string> {
    set x | x in st.gens && st.gens[x].Live()
  }

  // Queued requests that have not yielded since the last release of memory.
  ghost function Fresh(st: State, epoch: nat): set<string> {
    set x |
      && x in st.gens && st.gens[x].phase.Waiting?
      && !(st.gens[x].recomputing && st.gens[x].preemptedAtEpoch >= epoch)
  }

  // One unit for each token that an active request has left to do.
  ghost function Units(st: State): set<(string, nat)> {
    set x, k: nat | x in st.active && x in st.gens && 0 <= k < Left(st.gens[x]) :: (x, k)
  }

  // The measure of a state with its epoch: requests alive, then queued ones that may be
  // admitted, then active ones, then what these have left to do.
  ghost predicate Smaller(a: State, before: nat, b: State, after: nat) {
    || Alive(b) < Alive(a)
    || (Alive(b) == Alive(a)
        && (|| Fresh(b, after) < Fresh(a, before)
            || (Fresh(b, after) == Fresh(a, before)
                && (b.active < a.active || (b.active == a.active && Units(b) < Units(a))))))
  }

  // ---- what holds between iterations ------------------------------------------------------

  // A yielded request waits for an epoch that is still to come, and only while others run.
  ghost predicate Timely(st: State, epoch: nat) {
    forall x | x in st.gens && st.gens[x].phase.Waiting? && st.gens[x].recomputing ::
      st.gens[x].preemptedAtEpoch <= epoch && (st.gens[x].preemptedAtEpoch == epoch ==> st.active != {})
  }

  // An active request that is not decoding yet has something left to prefill.
  ghost predicate Brisk(st: State) {
    forall x | x in st.active && x in st.gens && st.gens[x].phase.Prefilling? :: Remaining(st.gens[x]) > 0
  }

  // ---- batches ----------------------------------------------------------------------------

  // What a batch makes of an active request: it stays as it is or gets further, or it ends, or it
  // waits for the next epoch.
  ghost predicate Fate(g: Generation, h: Generation, stays: bool, epoch: nat) {
    if stays then h == g || (Left(h) < Left(g) && (h.phase.Prefilling? ==> Remaining(h) > 0))
    else || h.phase.Finished? || (h.phase.Failed? && h.reason.KvPoolExhausted?)
         || (h.phase.Waiting? && h.recomputing && epoch <= h.preemptedAtEpoch)
  }

  ghost predicate Served(a: State, first: nat, b: State, last: nat) {
    && Ticked(a, first, b, last) && Evolves(a.gens, b.gens) && b.gens.Keys == a.gens.Keys
    && b.active <= a.active <= a.gens.Keys
    && (forall x | x in a.gens && x !in a.active :: b.gens[x] == a.gens[x])
    && (forall x | x in a.active :: Fate(a.gens[x], b.gens[x], x in b.active, first))
    && (Timely(a, first) ==> Timely(b, last))
  }

  lemma ServedNothing(st: State, epoch: nat)
    requires st.active <= st.gens.Keys
    ensures Served(st, epoch, st, epoch)
  {
    EvolvesSelf(st.gens);
  }

  lemma ServedEndings(a: State, first: nat, b: State, last: nat, capacity: int)
    requires Served(a, first, b, last)
    requires forall x | x in b.active :: x in b.gens && b.gens[x].Live()
    ensures Endings(a.gens, b.gens, capacity)
  {
    hide Ticked, Timely, Continues, Left, Remaining;
  }

  lemma ServedOn(a: State, first: nat, b: State, second: nat, c: State, third: nat)
    requires Served(a, first, b, second) && Served(b, second, c, third)
    ensures Served(a, first, c, third)
  {
    hide Continues, Ticked, Timely, Left, Remaining;
    EvolvesOn(a.gens, b.gens, c.gens);
    TickedOn(a, first, b, second, c, third);
    assert first <= second by { TickedUp(a, first, b, second); }
  }

  lemma TickedUp(a: State, first: nat, b: State, last: nat)
    requires Ticked(a, first, b, last)
    ensures first <= last
  {
  }

  // An active request's task, carried out or not.
  lemma TaskFate(a: State, b: State, plan: Plan, eos: set<Token>, epoch: nat, predict: seq<Slot> -> Token)
    requires Inv(a, predict, eos) && Inv(b, predict, eos) && plan.id in a.active && plan.id in a.gens && plan.count > 0
    requires CarriedOut(a, b, plan, eos) || GaveWay(a, b, plan.id, epoch)
    ensures plan.id in b.gens && Fate(a.gens[plan.id], b.gens[plan.id], plan.id in b.active, epoch)
    ensures plan.id in b.active ==> Left(b.gens[plan.id]) < Left(a.gens[plan.id])
    ensures b.gens[plan.id].phase.Waiting? ==> b.gens[plan.id].preemptedAtEpoch == epoch
  {
    hide Consistent, GenOk, RowOk, Oldest, Fate, Left;
    var g, h := a.gens[plan.id], b.gens[plan.id];
    assert Placed(b, plan.id);
    if CarriedOut(a, b, plan, eos) {
      if g.phase.Decoding? {
        var emitted: seq<Token> :| emitted != [] && |emitted| <= plan.count && h == Emitted(g, emitted, eos);
        EmittedFate(g, h, emitted, plan.id in b.active, eos, epoch, predict);
      } else {
        var token: Token :| h == FilledBy(g, plan.count, token, eos);
        if plan.id in b.active && h.phase.Prefilling? { PrefillRowFacts(b, plan.id, predict, eos); }
        FilledFate(g, h, plan.count, token, plan.id in b.active, eos, epoch, predict);
      }
    } else {
      YieldFate(g, h, epoch);
    }
  }

  lemma YieldFate(g: Generation, h: Generation, epoch: nat)
    requires h == g.Preempted(epoch) || h == g.(phase := Failed, reason := KvPoolExhausted)
    ensures Fate(g, h, false, epoch)
  {
  }

  lemma EmittedFate(g: Generation, h: Generation, emitted: seq<Token>, stays: bool, eos: set<Token>, epoch: nat,
                    predict: seq<Slot> -> Token)
    requires emitted != [] && h == Emitted(g, emitted, eos) && g.phase.Decoding? && GenOk(h, predict, eos)
    requires stays <==> h.phase.Decoding? || h.phase.Prefilling?
    ensures Fate(g, h, stays, epoch) && !h.phase.Waiting? && (stays ==> Left(h) < Left(g))
  {
    hide Chain, Open;
  }

  lemma FilledFate(g: Generation, h: Generation, count: nat, token: Token, stays: bool, eos: set<Token>, epoch: nat,
                   predict: seq<Slot> -> Token)
    requires h == FilledBy(g, count, token, eos) && g.phase.Prefilling? && count > 0 && GenOk(h, predict, eos)
    requires stays <==> h.phase.Decoding? || h.phase.Prefilling?
    requires stays && h.phase.Prefilling? ==> h.prefilled <= |h.PrefillIds()|
    ensures Fate(g, h, stays, epoch) && !h.phase.Waiting?
    ensures stays ==> Left(h) < Left(g)
  {
    hide GenOk, Fate, Left, Completed, Generation.PrefillIds;
    var more := g.(prefilled := g.prefilled + count);
    assert more.PrefillIds() == g.PrefillIds() by { SamePrefill(g, more.prefilled); }
    if FullyPrefilled(more) {
      CompletedFate(g, h, more, token, stays, eos, epoch, predict);
    } else {
      ChunkFate(g, h, epoch);
    }
  }

  lemma SamePrefill(g: Generation, n: nat)
    ensures g.(prefilled := n).PrefillIds() == g.PrefillIds()
  {
  }

  lemma ChunkFate(g: Generation, h: Generation, epoch: nat)
    requires g.phase.Prefilling? && g.prefilled < h.prefilled && h == g.(prefilled := h.prefilled)
    requires h.PrefillIds() == g.PrefillIds() && h.prefilled < |h.PrefillIds()|
    ensures Fate(g, h, true, epoch) && Left(h) < Left(g)
  {
    hide Generation.PrefillIds;
  }

  lemma CompletedFate(g: Generation, h: Generation, more: Generation, token: Token, stays: bool, eos: set<Token>,
                      epoch: nat, predict: seq<Slot> -> Token)
    requires g.phase.Prefilling? && more == g.(prefilled := more.prefilled) && g.prefilled < more.prefilled
    requires more.PrefillIds() == g.PrefillIds() && FullyPrefilled(more)
    requires h == Completed(more, Some(token), eos) && GenOk(h, predict, eos)
    requires stays <==> h.phase.Decoding? || h.phase.Prefilling?
    ensures Fate(g, h, stays, epoch) && !h.phase.Waiting? && (stays ==> Left(h) < Left(g))
  {
    hide Chain, Open, Complete, Generation.PrefillIds, Generation.Ends;
  }

  // A batch as a whole.
  lemma BatchServed(a: State, first: nat, b: State, last: nat, tasks: set<Plan>, eos: set<Token>,
                    predict: seq<Slot> -> Token)
    requires Inv(a, predict, eos) && Inv(b, predict, eos) && BatchProgress(a, b, tasks, eos, first)
    requires Ticked(a, first, b, last)
    requires forall plan | plan in tasks :: plan.count > 0 && plan.id in a.active
    ensures Served(a, first, b, last)
    ensures forall plan | plan in tasks && plan.id in b.active ::
              plan.id in a.gens && plan.id in b.gens && Left(b.gens[plan.id]) < Left(a.gens[plan.id])
  {
    hide Inv, Ticked, Fate, Left, CarriedOut, GaveWay, Continues, Timely;
    AllActive(a, predict, eos);
    forall x | x in a.active
      ensures Fate(a.gens[x], b.gens[x], x in b.active, first)
      ensures b.gens[x].phase.Waiting? ==> b.gens[x].preemptedAtEpoch == first
    {
      OneServed(a, b, tasks, x, eos, first, predict);
    }
    forall plan | plan in tasks && plan.id in b.active ensures Left(b.gens[plan.id]) < Left(a.gens[plan.id]) {
      TaskFate(a, b, plan, eos, first, predict);
    }
    if Timely(a, first) { StaysTimely(a, first, b, last); }
  }

  lemma OneServed(a: State, b: State, tasks: set<Plan>, id: string, eos: set<Token>, epoch: nat,
                  predict: seq<Slot> -> Token)
    requires Inv(a, predict, eos) && Inv(b, predict, eos) && BatchProgress(a, b, tasks, eos, epoch)
    requires id in a.active && id in a.gens && forall plan | plan in tasks :: plan.count > 0
    ensures id in b.gens && Fate(a.gens[id], b.gens[id], id in b.active, epoch)
    ensures b.gens[id].phase.Waiting? ==> b.gens[id].preemptedAtEpoch == epoch
  {
    hide Inv, Fate, CarriedOut, Continues;
    if plan :| plan in tasks && plan.id == id {
      TaskFate(a, b, plan, eos, epoch, predict);
    } else if id in b.active {
      ActiveRow(b, id, predict, eos);
      SameFate(a.gens[id], epoch);
    } else {
      YieldFate(a.gens[id], b.gens[id], epoch);
    }
  }

  lemma SameFate(g: Generation, epoch: nat)
    ensures Fate(g, g, true, epoch)
  {
  }

  // Whoever yielded did so in the epoch in which the batch started.
  lemma StaysTimely(a: State, first: nat, b: State, last: nat)
    requires Timely(a, first) && Ticked(a, first, b, last) && b.gens.Keys == a.gens.Keys && a.active <= a.gens.Keys
    requires forall x | x in a.gens && x !in a.active :: b.gens[x] == a.gens[x]
    requires forall x | x in a.active && b.gens[x].phase.Waiting? :: b.gens[x].preemptedAtEpoch == first
    ensures Timely(b, last)
  {
    hide SomeEnded;
  }

  lemma ThinnedServed(a: State, first: nat, b: State, last: nat, predict: seq<Slot> -> Token, eos: set<Token>)
    requires Inv(a, predict, eos) && Thinned(a, b, first) && Ticked(a, first, b, last)
    ensures Served(a, first, b, last)
  {
    hide Inv, Ticked, Fate, Continues, Timely, Oldest;
    AllActive(a, predict, eos);
    BatchThinned(a, b, first, predict, eos);
    forall x | x in a.active
      ensures Fate(a.gens[x], b.gens[x], x in b.active, first)
      ensures b.gens[x].phase.Waiting? ==> b.gens[x].preemptedAtEpoch == first
    {
      ActiveRow(a, x, predict, eos);
      if x in b.active { SameFate(a.gens[x], first); } else { YieldFate(a.gens[x], b.gens[x], first); }
    }
    if Timely(a, first) { StaysTimely(a, first, b, last); }
  }

  // ---- the groups of a speculative step ---------------------------------------------------

  // Before the round of this depth.
  ghost predicate Turns(a: State, first: nat, now: State, last: nat, decoding: set<string>,
                        drafts: map<string, seq<Token>>, depth: nat)
  {
    && Taking(a, now, decoding, drafts, depth) && OldestTaking(a, now, decoding, drafts, depth)
    && Served(a, first, now, last)
  }

  lemma StartTurns(st: State, epoch: nat, decoding: set<string>, drafts: map<string, seq<Token>>, depth: nat)
    requires DraftsOk(st.gens, decoding, drafts, depth) && decoding <= st.active <= st.gens.Keys
    requires forall id | id in decoding :: st.gens[id].phase.Decoding?
    ensures Turns(st, epoch, st, epoch, decoding, drafts, 1)
  {
    hide Taking, OldestTaking, Served;
    StartTaking(st, decoding, drafts, depth);
    StartOldest(st, decoding, drafts);
    ServedNothing(st, epoch);
  }

  lemma TurnsFacts(a: State, first: nat, now: State, last: nat, decoding: set<string>, drafts: map<string, seq<Token>>,
                   depth: nat)
    requires Turns(a, first, now, last, decoding, drafts, depth)
    ensures Evolves(a.gens, now.gens) && now.gens.Keys == a.gens.Keys && now.active <= a.active <= a.gens.Keys
    ensures forall id | id in decoding :: id in a.gens && a.gens[id].phase.Decoding?
  {
    hide Served, OldestTaking, Fared, Untouched, Continues;
  }

  lemma TurnsGoOn(a: State, first: nat, turn: State, second: nat, now: State, third: nat, decoding: set<string>,
                  drafts: map<string, seq<Token>>, depth: nat, group: set<string>, eos: set<Token>,
                  predict: seq<Slot> -> Token)
    requires Inv(turn, predict, eos) && Inv(now, predict, eos) && Turns(a, first, turn, second, decoding, drafts, depth)
    requires BatchProgress(turn, now, DecodeTasks(group, drafts), eos, second) && Ticked(turn, second, now, third)
    requires OldestDecided(turn, now, DecodeTasks(group, drafts), eos)
    requires forall x | x !in group && Oldest(turn, x) :: Waited(turn, now, x)
    requires group <= turn.active
    requires forall x |
               && x in drafts && x in turn.active && x in turn.gens && turn.gens[x].phase.Decoding?
               && |drafts[x]| == depth ::
               x in group
    ensures Turns(a, first, now, third, decoding, drafts, depth + 1)
  {
    hide Inv, Taking, OldestTaking, Served, Ticked, BatchProgress, Oldest, Waited, OldestDecided, Evolves;
    TurnsFacts(a, first, turn, second, decoding, drafts, depth);
    ProgressFacts(turn, now, DecodeTasks(group, drafts), eos, second);
    TurnTaken(a, turn, now, decoding, drafts, depth, group, eos, second, predict);
    OldestTook(a, turn, now, decoding, drafts, depth, group, eos);
    BatchServed(turn, second, now, third, DecodeTasks(group, drafts), eos, predict);
    ServedOn(a, first, turn, second, now, third);
  }

  lemma TurnsEnd(a: State, first: nat, turn: State, second: nat, now: State, third: nat, decoding: set<string>,
                 drafts: map<string, seq<Token>>, depth: nat, ordinary: set<string>, eos: set<Token>,
                 predict: seq<Slot> -> Token)
    requires Inv(turn, predict, eos) && Inv(now, predict, eos) && Turns(a, first, turn, second, decoding, drafts, depth)
    requires BatchProgress(turn, now, DecodeTasks(ordinary, map[]), eos, second) && Ticked(turn, second, now, third)
    requires OldestDecided(turn, now, DecodeTasks(ordinary, map[]), eos)
    requires forall x | x !in ordinary && Oldest(turn, x) :: Waited(turn, now, x)
    requires ordinary <= turn.active && forall x | x in drafts :: |drafts[x]| < depth
    requires forall x |
               && x in decoding && x !in drafts && x in turn.active && x in turn.gens
               && turn.gens[x].phase.Decoding? ::
               x in ordinary
    ensures Evolves(a.gens, now.gens) && now.gens.Keys == a.gens.Keys && now.active <= a.active
    ensures forall id | id in decoding :: Fared(a, now, id)
    ensures OldestDecoded(a, now, false, decoding, drafts) && Served(a, first, now, third)
  {
    hide Inv, Taking, OldestTaking, Served, Ticked, BatchProgress, Oldest, Waited, OldestDecided, Evolves,
         OldestDecoded, Fared;
    TurnsFacts(a, first, turn, second, decoding, drafts, depth);
    ProgressFacts(turn, now, DecodeTasks(ordinary, map[]), eos, second);
    LastTurn(a, turn, now, decoding, drafts, depth, ordinary, eos, second, predict);
    OldestTookTurn(a, turn, now, decoding, drafts, depth, ordinary, eos);
    BatchServed(turn, second, now, third, DecodeTasks(ordinary, map[]), eos, predict);
    ServedOn(a, first, turn, second, now, third);
  }

  // ---- admission --------------------------------------------------------------------------

  // What the admission part does to requests: some leave the queue, in order, and nobody else
  // changes.
  ghost predicate Joined(a: State, first: nat, b: State, last: nat, admitted: seq<string>) {
    && b.gens.Keys == a.gens.Keys && Evolves(a.gens, b.gens) && a.active <= a.gens.Keys && first <= last
    && (last != first ==> SomeEnded(a.gens, b.gens)) && (last == first && a.active != {} ==> b.active != {})
    && (forall x | x in b.gens && b.gens[x].phase.Waiting? :: b.gens[x] == a.gens[x])
    && (forall x | x in b.active && x !in admitted :: x in a.active && b.gens[x] == a.gens[x])
    && (forall x | x in a.active :: x in b.active && b.gens[x] == a.gens[x])
    && (forall x | x in admitted :: x in a.gens && a.gens[x].phase.Waiting? && !b.gens[x].phase.Waiting?)
    && (forall x | x in admitted && x in b.active && b.gens[x].phase.Prefilling? :: Remaining(b.gens[x]) > 0)
  }

  lemma JoinedKeys(a: State, first: nat, b: State, last: nat, admitted: seq<string>)
    requires Joined(a, first, b, last, admitted)
    ensures b.gens.Keys == a.gens.Keys
  {
  }

  lemma AdmissionJoins(a: State, first: nat, joined: State, b: State, last: nat, k: nat, admitted: seq<string>,
                       capacity: nat, predict: seq<Slot> -> Token, eos: set<Token>)
    requires Inv(a, predict, eos) && Inv(joined, predict, eos) && Inv(b, predict, eos)
    requires Admitting(a, joined, k, admitted, capacity, predict) && HitsDone(joined, b, admitted, eos)
    requires Ticked(joined, first, b, last)
    ensures Joined(a, first, b, last, admitted)
  {
    hide Inv, Admitting, HitsDone, Continues, SomeEnded, Started, Remaining;
    AllActive(a, predict, eos);
    QueueFacts(a, joined, k, admitted, capacity, predict, eos);
    HitsFacts(joined, b, admitted, eos);
    EvolvesOn(a.gens, joined.gens, b.gens);
    if SomeEnded(joined.gens, b.gens) { EndedEarlier(a.gens, joined.gens, b.gens); }
    forall x | x in admitted ensures !b.gens[x].phase.Waiting? { StartedFacts(joined.gens[x], eos); }
    forall x | x in admitted && x in b.active && b.gens[x].phase.Prefilling? ensures Remaining(b.gens[x]) > 0 {
      PrefillRowFacts(b, x, predict, eos);
      StillUnfilled(b.gens[x], joined.gens[x], eos);
    }
  }

  lemma NothingTaken(a: State, joined: State, k: nat, admitted: seq<string>, capacity: nat, predict: seq<Slot> -> Token)
    requires Admitting(a, joined, k, admitted, capacity, predict)
    ensures k == 0 ==> joined.waiting == a.waiting && joined.active == a.active
  {
    hide HitOk, RowKept, Evolves;
  }

  lemma QueueFacts(a: State, joined: State, k: nat, admitted: seq<string>, capacity: nat, predict: seq<Slot> -> Token,
                   eos: set<Token>)
    requires Inv(a, predict, eos) && Inv(joined, predict, eos) && Admitting(a, joined, k, admitted, capacity, predict)
    ensures joined.gens.Keys == a.gens.Keys && Evolves(a.gens, joined.gens) && a.active <= joined.active
    ensures forall x | x in joined.active && x !in admitted :: x in a.active
    ensures forall x | x in admitted ::
              x in a.gens && a.gens[x].phase.Waiting? && joined.gens[x].phase.Prefilling? && x !in a.active
    ensures forall x | x in a.active :: x in a.gens && joined.gens[x] == a.gens[x]
    ensures forall x | x in joined.gens && joined.gens[x].phase.Waiting? :: joined.gens[x] == a.gens[x]
  {
    hide Inv, HitOk, Continues, Undisturbed, Fitting;
    AllActive(a, predict, eos);
    AdmittedHits(a, joined, k, admitted, capacity, predict, eos);
    forall x | x in admitted ensures a.gens[x].phase.Waiting? {
      assert x in a.waiting;
      WaitingFacts(a, x, predict, eos);
    }
    forall x | x in a.active ensures joined.gens[x] == a.gens[x] { assert RowKept(a, joined, x); }
  }

  lemma HitsFacts(joined: State, b: State, admitted: seq<string>, eos: set<Token>)
    requires HitsDone(joined, b, admitted, eos)
    ensures b.gens.Keys == joined.gens.Keys && Evolves(joined.gens, b.gens)
    ensures b.active <= joined.active <= joined.gens.Keys
    ensures forall x | x in joined.gens && x !in admitted ::
              b.gens[x] == joined.gens[x] && (x in joined.active ==> x in b.active)
    ensures forall x | x in admitted :: x in joined.gens && x in b.gens && b.gens[x] == Started(joined.gens[x], eos)
  {
    hide Continues, Undisturbed, Started;
  }

  lemma EndedEarlier(a: map<string, Generation>, b: map<string, Generation>, c: map<string, Generation>)
    requires Evolves(a, b) && SomeEnded(b, c) && a.Keys == b.Keys
    ensures SomeEnded(a, c)
  {
    var x :| x in b && x in c && b[x].Live() && !c[x].Live();
    assert Continues(a[x], b[x]);
  }

  lemma StartedFacts(g: Generation, eos: set<Token>)
    requires g.phase.Prefilling?
    ensures !Started(g, eos).phase.Waiting?
  {
  }

  lemma StillUnfilled(h: Generation, g: Generation, eos: set<Token>)
    requires h == Started(g, eos) && h.phase.Prefilling? && g.phase.Prefilling? && h.prefilled <= |h.PrefillIds()|
    ensures Remaining(h) > 0
  {
  }

  // ---- one iteration ----------------------------------------------------------------------

  // What an iteration did, as far as the measure is concerned.
  ghost predicate Advance(a: State, first: nat, t: Trail, middle: nat, b: State, last: nat) {
    && Served(a, first, t.decoded, middle)
    && Joined(t.decoded, middle, t.started, t.later, t.admitted)
    && NoneParked(t.decoded.gens, t.admitted, t.decoded.active == {}, middle)
    && Served(t.started, t.later, b, last)
    && (forall plan | plan in Tasks(t.rows + t.plans) && plan.id in b.active ::
          plan.id in t.started.gens && plan.id in b.gens && Left(b.gens[plan.id]) < Left(t.started.gens[plan.id]))
    && (forall plan | plan in Tasks(t.rows + t.plans) :: plan.id in t.started.active)
    && (t.plans == [] ==> forall x | x in t.started.active && x in t.started.gens :: Remaining(t.started.gens[x]) == 0)
  }

  // Between iterations nobody is stuck.
  lemma AdvanceKeeps(a: State, first: nat, t: Trail, middle: nat, b: State, last: nat)
    requires Advance(a, first, t, middle, b, last) && Timely(a, first) && Brisk(a)
    ensures Timely(b, last) && Brisk(b)
  {
    hide Ticked, Left, Remaining, SomeEnded, Continues, NoneParked;
    assert Timely(t.decoded, middle);
    assert Timely(t.started, t.later) by { JoinedTimely(t.decoded, middle, t.started, t.later, t.admitted); }
    assert Brisk(t.decoded) by { ServedBrisk(a, first, t.decoded, middle); }
    assert Brisk(t.started) by { JoinedBrisk(t.decoded, middle, t.started, t.later, t.admitted); }
    ServedBrisk(t.started, t.later, b, last);
  }

  lemma ServedBrisk(a: State, first: nat, b: State, last: nat)
    requires Served(a, first, b, last) && Brisk(a)
    ensures Brisk(b)
  {
    hide Ticked, Left, Remaining, Continues, Timely;
  }

  lemma JoinedBrisk(a: State, first: nat, b: State, last: nat, admitted: seq<string>)
    requires Joined(a, first, b, last, admitted) && Brisk(a)
    ensures Brisk(b)
  {
    hide Remaining, Continues, SomeEnded;
  }

  lemma JoinedTimely(a: State, first: nat, b: State, last: nat, admitted: seq<string>)
    requires Joined(a, first, b, last, admitted) && Timely(a, first)
    ensures Timely(b, last)
  {
    hide Remaining, Continues, SomeEnded;
  }

  // Requests only ever end.
  lemma AliveShrinks(a: State, b: State)
    requires Evolves(a.gens, b.gens) && b.gens.Keys == a.gens.Keys
    ensures Alive(b) <= Alive(a)
    ensures Alive(b) == Alive(a) ==> !SomeEnded(a.gens, b.gens)
  {
    forall x | x in Alive(b) ensures x in Alive(a) { assert Continues(a.gens[x], b.gens[x]); }
    if SomeEnded(a.gens, b.gens) {
      var x :| x in a.gens && x in b.gens && a.gens[x].Live() && !b.gens[x].Live();
      assert x in Alive(a) && x !in Alive(b);
    }
  }

  // Nobody became admissible in a batch: who yields is parked.
  lemma ServedFresh(a: State, b: State, epoch: nat, x: string, predict: seq<Slot> -> Token, eos: set<Token>)
    requires Served(a, epoch, b, epoch) && x in Fresh(b, epoch) && Inv(b, predict, eos)
    ensures x in Fresh(a, epoch) && x !in a.active && a.gens[x] == b.gens[x]
  {
    hide Ticked, Left, Remaining, Continues, Timely, Consistent, RowOk, GenOk;
    assert Placed(b, x);
  }

  // Nobody ended: then the epoch stood still, and what is admissible at the end was so at the start.
  lemma SameEpoch(a: State, first: nat, t: Trail, middle: nat, b: State, last: nat)
    requires Advance(a, first, t, middle, b, last) && Alive(b) == Alive(a)
    ensures first == middle == t.later == last
    ensures Alive(t.decoded) == Alive(t.started) == Alive(a)
  {
    hide Left, Remaining, SomeEnded, Timely, Fate, NoneParked, Continues, Tasks, Alive;
    AliveShrinks(a, t.decoded);
    AliveShrinks(t.decoded, t.started);
    AliveShrinks(t.started, b);
  }

  lemma FreshShrinks(a: State, t: Trail, b: State, epoch: nat, predict: seq<Slot> -> Token, eos: set<Token>)
    requires Advance(a, epoch, t, epoch, b, epoch) && t.later == epoch
    requires Inv(t.decoded, predict, eos) && Inv(t.started, predict, eos) && Inv(b, predict, eos)
    ensures Fresh(b, epoch) <= Fresh(a, epoch)
    ensures forall x | x in Fresh(b, epoch) :: x in t.started.gens && t.started.gens[x].phase.Waiting?
  {
    hide Served, Left, Remaining, NoneParked, Continues, Inv, Tasks, SomeEnded;
    forall x | x in Fresh(b, epoch)
      ensures x in Fresh(a, epoch) && x in t.started.gens && t.started.gens[x].phase.Waiting?
    {
      ServedFresh(t.started, b, epoch, x, predict, eos);
      assert x in Fresh(t.decoded, epoch);
      ServedFresh(a, t.decoded, epoch, x, predict, eos);
    }
  }

  // Whoever is admitted was admissible: it had not yielded since the last release, and if the
  // decode part released nothing, then not before it either.
  lemma AdmittedWasFresh(a: State, first: nat, t: Trail, middle: nat, b: State, last: nat, predict: seq<Slot> -> Token,
                         eos: set<Token>)
    requires Advance(a, first, t, middle, b, last) && Timely(a, first) && Inv(t.decoded, predict, eos)
    ensures forall y | y in t.admitted ::
              && y in Fresh(t.decoded, middle) && (middle == first ==> y in Fresh(a, first))
              && y in t.started.gens && !t.started.gens[y].phase.Waiting?
  {
    hide Left, Remaining, Continues, Inv, Tasks, SomeEnded, Fate, Ticked;
    forall y | y in t.admitted
      ensures y in Fresh(t.decoded, middle) && (middle == first ==> y in Fresh(a, first))
    {
      var i :| 0 <= i < |t.admitted| && t.admitted[i] == y;
      assert Timely(t.decoded, middle);
      if middle == first { ServedFresh(a, t.decoded, first, y, predict, eos); }
    }
  }

  // Nobody admitted: whoever is active at the end was active all along.
  lemma LeftChain(a: State, first: nat, t: Trail, middle: nat, b: State, last: nat, x: string)
    requires Advance(a, first, t, middle, b, last) && t.admitted == [] && x in b.active
    ensures x in a.active && x in t.decoded.active && x in t.started.active
    ensures x in a.gens && x in t.decoded.gens && x in t.started.gens && x in b.gens
    ensures t.started.gens[x] == t.decoded.gens[x]
    ensures Left(b.gens[x]) <= Left(t.started.gens[x]) && Left(t.decoded.gens[x]) <= Left(a.gens[x])
    ensures t.decoded.gens[x] == a.gens[x] || Left(t.decoded.gens[x]) < Left(a.gens[x])
  {
    hide Ticked, Left, Remaining, Continues, Timely, SomeEnded, NoneParked, Tasks;
  }

  // With somebody active, some request gets further.
  lemma SomebodyAdvances(a: State, first: nat, t: Trail, middle: nat, b: State, last: nat) returns (y: string)
    requires Advance(a, first, t, middle, b, last) && t.admitted == [] && b.active == a.active != {} && Brisk(a)
    requires Decoded(a, t.decoded, t.fused, t.rows, first)
    requires forall x | x in a.active && x in a.gens :: a.gens[x].phase.Decoding? || a.gens[x].phase.Prefilling?
    ensures y in a.active && y in a.gens && y in b.gens && Left(b.gens[y]) < Left(a.gens[y])
  {
    hide Ticked, Left, Remaining, Continues, Timely, SomeEnded, NoneParked, Served, Joined, Thinned;
    y :| y in a.active;
    LeftChain(a, first, t, middle, b, last, y);
    if t.decoded.gens[y] == a.gens[y] {
      if a.gens[y].phase.Decoding? {
        DecodingAdvances(a, first, t, b, y);
      } else {
        assert t.plans != [];
        var plan := t.plans[0];
        assert plan in Tasks(t.rows + t.plans) by { assert plan in t.rows + t.plans; }
        assert plan.id in b.active by { StartedAlready(a, first, t, middle, b, last); }
        y := PlannedAdvances(a, first, t, middle, b, last, plan);
      }
    }
  }

  lemma StartedAlready(a: State, first: nat, t: Trail, middle: nat, b: State, last: nat)
    requires Advance(a, first, t, middle, b, last) && t.admitted == []
    ensures b.active <= t.started.active <= t.decoded.active <= a.active
  {
    hide Ticked, Fate, Left, Remaining, Continues, Timely, SomeEnded, NoneParked, Tasks;
  }

  // Without a shared forward pass a decoding request cannot stay as it is.
  lemma StayedMeansFused(a: State, first: nat, t: Trail, y: string)
    requires Decoded(a, t.decoded, t.fused, t.rows, first) && y in a.active && y in a.gens && a.gens[y].phase.Decoding?
    requires y in t.decoded.active && y in t.decoded.gens && t.decoded.gens[y] == a.gens[y]
    ensures t.fused
  {
    hide Thinned, Continues;
    assert t.fused || Fared(a, t.decoded, y);
  }

  lemma DecodingAdvances(a: State, first: nat, t: Trail, b: State, y: string)
    requires Decoded(a, t.decoded, t.fused, t.rows, first) && y in a.active && y in a.gens && a.gens[y].phase.Decoding?
    requires y in t.decoded.active && y in t.decoded.gens && t.decoded.gens[y] == a.gens[y]
    requires forall plan | plan in Tasks(t.rows + t.plans) && plan.id in b.active ::
               plan.id in t.started.gens && plan.id in b.gens && Left(b.gens[plan.id]) < Left(t.started.gens[plan.id])
    requires y in b.active && y in t.started.gens && t.started.gens[y] == a.gens[y]
    ensures y in b.gens && Left(b.gens[y]) < Left(a.gens[y])
  {
    hide Left, Thinned, Continues;
    StayedMeansFused(a, first, t, y);
    assert y in RowIds(t.rows);
    var plan :| plan in t.rows && plan.id == y;
    assert plan in t.rows + t.plans && plan in Tasks(t.rows + t.plans);
  }

  lemma PlannedAdvances(a: State, first: nat, t: Trail, middle: nat, b: State, last: nat, plan: Plan)
    returns (y: string)
    requires Advance(a, first, t, middle, b, last) && t.admitted == [] && b.active == a.active
    requires plan in Tasks(t.rows + t.plans) && plan.id in b.active
    ensures y in a.active && y in a.gens && y in b.gens && Left(b.gens[y]) < Left(a.gens[y])
  {
    hide Left, Remaining, Served, Joined, NoneParked, Tasks;
    y := plan.id;
    LeftChain(a, first, t, middle, b, last, y);
  }

  lemma UnitsShrink(a: State, b: State, y: string)
    requires b.active == a.active && a.active <= a.gens.Keys && a.active <= b.gens.Keys && y in a.active
    requires forall x | x in a.active :: Left(b.gens[x]) <= Left(a.gens[x])
    requires Left(b.gens[y]) < Left(a.gens[y])
    ensures Units(b) < Units(a)
  {
    hide Left;
    assert (y, Left(b.gens[y])) in Units(a) && (y, Left(b.gens[y])) !in Units(b);
  }

  // An iteration with nobody active takes something from the queue.
  ghost predicate Admits(t: Trail) {
    t.decoded.active == {} && t.k == 0 ==> t.decoded.waiting == []
  }

  // Taking something from the queue without admitting it ends it.
  lemma TakenEnds(t: Trail, capacity: nat, predict: seq<Slot> -> Token, eos: set<Token>)
    requires Admitting(t.decoded, t.joined, t.k, t.admitted, capacity, predict)
    requires HitsDone(t.joined, t.started, t.admitted, eos)
    requires Inv(t.decoded, predict, eos) && t.admitted == [] && t.k > 0
    ensures SomeEnded(t.decoded.gens, t.started.gens)
  {
    hide Inv, HitsDone, Admitting;
    var x := HeadTaken(t.decoded, t.joined, t.k, t.admitted, capacity, predict);
    WaitingFacts(t.decoded, x, predict, eos);
    HitsFacts(t.joined, t.started, t.admitted, eos);
    assert !t.started.gens[x].Live();
  }

  lemma HeadTaken(a: State, joined: State, k: nat, admitted: seq<string>, capacity: nat, predict: seq<Slot> -> Token)
    returns (x: string)
    requires Admitting(a, joined, k, admitted, capacity, predict) && admitted == [] && k > 0
    ensures x in a.waiting && x in a.gens && x in joined.gens && joined.gens[x] == Rejection(a.gens[x])
  {
    hide HitOk, RowKept, Evolves, Fits, Fitting, Rejection;
    x := a.waiting[0];
    assert x in a.waiting[..k] && x in a.waiting && x !in admitted;
    assert !Fits(a.gens[x], capacity);
  }

  // The measure goes down as long as somebody is alive.
  lemma IterationShrinks(a: State, first: nat, t: Trail, middle: nat, b: State, last: nat, capacity: nat,
                         predict: seq<Slot> -> Token, eos: set<Token>)
    requires Inv(a, predict, eos) && Inv(t.decoded, predict, eos) && Inv(t.started, predict, eos)
    requires Inv(b, predict, eos)
    requires Advance(a, first, t, middle, b, last) && Timely(a, first) && Brisk(a) && Admits(t) && Alive(a) != {}
    requires Decoded(a, t.decoded, t.fused, t.rows, first)
    requires Admitting(t.decoded, t.joined, t.k, t.admitted, capacity, predict)
    requires HitsDone(t.joined, t.started, t.admitted, eos)
    ensures Smaller(a, first, b, last)
  {
    hide Inv, Timely, Brisk, Decoded, Admitting, HitsDone, Alive, Fresh, Units, Served, Joined, NoneParked, Left,
         Remaining, Tasks;
    OnlyEnds(a, first, t, middle, b, last);
    if Alive(b) == Alive(a) {
      SameEpoch(a, first, t, middle, b, last);
      FreshShrinks(a, t, b, first, predict, eos);
      if t.admitted != [] {
        AdmittedWasFresh(a, first, t, middle, b, last, predict, eos);
        assert t.admitted[0] in t.admitted && t.admitted[0] !in Fresh(b, first);
      } else {
        StartedAlready(a, first, t, middle, b, last);
        if b.active == a.active { WorkShrinks(a, first, t, middle, b, last, capacity, predict, eos); }
      }
    }
  }

  lemma OnlyEnds(a: State, first: nat, t: Trail, middle: nat, b: State, last: nat)
    requires Advance(a, first, t, middle, b, last)
    ensures Alive(b) <= Alive(a)
  {
    hide Left, Remaining, SomeEnded, Timely, Fate, NoneParked, Continues, Tasks, Alive;
    AliveShrinks(a, t.decoded);
    AliveShrinks(t.decoded, t.started);
    AliveShrinks(t.started, b);
  }

  // An idle engine with somebody alive does not stay idle: the head of the queue is rejected if
  // it is not admitted.
  lemma IdleEnds(a: State, first: nat, t: Trail, middle: nat, b: State, last: nat, capacity: nat,
                 predict: seq<Slot> -> Token, eos: set<Token>)
    requires Inv(t.decoded, predict, eos) && Advance(a, first, t, middle, b, last) && Admits(t) && Alive(a) != {}
    requires t.admitted == [] && a.active == {}
    requires Admitting(t.decoded, t.joined, t.k, t.admitted, capacity, predict)
    requires HitsDone(t.joined, t.started, t.admitted, eos)
    ensures Alive(b) != Alive(a)
  {
    hide Inv, Admitting, HitsDone, Left, Remaining, SomeEnded, Timely, Fate, NoneParked, Continues, Tasks, Alive;
    AliveShrinks(a, t.decoded);
    AliveShrinks(t.decoded, t.started);
    AliveShrinks(t.started, b);
    if t.k > 0 { TakenEnds(t, capacity, predict, eos); } else { NobodyAlive(t.decoded, predict, eos); }
  }

  lemma NobodyAlive(st: State, predict: seq<Slot> -> Token, eos: set<Token>)
    requires Inv(st, predict, eos) && st.active == {} && st.waiting == []
    ensures Alive(st) == {}
  {
    hide Consistent, RowOk, GenOk;
    forall x | x in st.gens ensures !st.gens[x].Live() { assert Placed(st, x); }
  }

  lemma WorkShrinks(a: State, first: nat, t: Trail, middle: nat, b: State, last: nat, capacity: nat,
                    predict: seq<Slot> -> Token, eos: set<Token>)
    requires Inv(a, predict, eos) && Inv(t.decoded, predict, eos) && Inv(b, predict, eos)
    requires Advance(a, first, t, middle, b, last) && Brisk(a) && Admits(t) && Alive(a) != {} && Alive(b) == Alive(a)
    requires t.admitted == [] && b.active == a.active && Decoded(a, t.decoded, t.fused, t.rows, first)
    requires Admitting(t.decoded, t.joined, t.k, t.admitted, capacity, predict)
    requires HitsDone(t.joined, t.started, t.admitted, eos)
    ensures Units(b) < Units(a)
  {
    hide Inv, Brisk, Decoded, Admitting, HitsDone, Alive, Units, Served, Joined, NoneParked, Left, Remaining, Tasks;
    AllActive(a, predict, eos);
    AllActive(b, predict, eos);
    if a.active == {} {
      IdleEnds(a, first, t, middle, b, last, capacity, predict, eos);
    } else {
      forall x | x in a.active ensures Left(b.gens[x]) <= Left(a.gens[x]) {
        LeftChain(a, first, t, middle, b, last, x);
      }
      forall x | x in a.active ensures a.gens[x].phase.Decoding? || a.gens[x].phase.Prefilling? {
        ActiveRow(a, x, predict, eos);
      }
      var y := SomebodyAdvances(a, first, t, middle, b, last);
      UnitsShrink(a, b, y);
    }
  }

  // ---- the iteration the engine makes -----------------------------------------------------

  lemma AdvanceMade(a: State, first: nat, t: Trail, middle: nat, b: State, last: nat, eos: set<Token>,
                    predict: seq<Slot> -> Token)
    requires Inv(t.started, predict, eos) && Inv(b, predict, eos)
    requires Served(a, first, t.decoded, middle) && Joined(t.decoded, middle, t.started, t.later, t.admitted)
    requires NoneParked(t.decoded.gens, t.admitted, t.decoded.active == {}, middle)
    requires BatchProgress(t.started, b, Tasks(t.rows + t.plans), eos, t.later) && Ticked(t.started, t.later, b, last)
    requires forall plan | plan in Tasks(t.rows + t.plans) :: plan.count > 0 && plan.id in t.started.active
    requires t.plans == [] ==>
               forall x | x in t.started.active && x in t.started.gens :: Remaining(t.started.gens[x]) == 0
    ensures Advance(a, first, t, middle, b, last)
  {
    hide Inv, Served, Joined, NoneParked, BatchProgress, Ticked, Tasks, Left, Remaining;
    BatchServed(t.started, t.later, b, last, Tasks(t.rows + t.plans), eos, predict);
  }

  lemma IterationEnds(a: State, first: nat, t: Trail, middle: nat, b: State, last: nat, capacity: int,
                      predict: seq<Slot> -> Token, eos: set<Token>)
    requires Inv(t.decoded, predict, eos) && Inv(b, predict, eos) && Advance(a, first, t, middle, b, last)
    requires Endings(t.decoded.gens, t.started.gens, capacity)
    ensures Endings(a.gens, b.gens, capacity)
  {
    hide Inv, Ticked, Timely, Continues, Left, Remaining, NoneParked, Endings, Tasks, Fate;
    ActiveAlive(t.decoded, predict, eos);
    ActiveAlive(b, predict, eos);
    ServedEndings(a, first, t.decoded, middle, capacity);
    ServedEndings(t.started, t.later, b, last, capacity);
    EndingsOn(a.gens, t.decoded.gens, t.started.gens, capacity);
    EvolvesOn(a.gens, t.decoded.gens, t.started.gens);
    EndingsOn(a.gens, t.started.gens, b.gens, capacity);
  }

  lemma ActiveAlive(st: State, predict: seq<Slot> -> Token, eos: set<Token>)
    requires Inv(st, predict, eos)
    ensures forall x | x in st.active :: x in st.gens && st.gens[x].Live()
  {
    hide Inv;
    forall x | x in st.active ensures x in st.gens && st.gens[x].Live() { ActiveIsLive(st, x, predict, eos); }
  }

  lemma IterationAdvances(a: State, first: nat, t: Trail, middle: nat, b: State, last: nat, capacity: nat,
                          predict: seq<Slot> -> Token, eos: set<Token>)
    requires Inv(a, predict, eos) && Inv(t.decoded, predict, eos) && Inv(t.started, predict, eos)
    requires Inv(b, predict, eos)
    requires Advance(a, first, t, middle, b, last) && Admits(t)
    requires Decoded(a, t.decoded, t.fused, t.rows, first)
    requires Admitting(t.decoded, t.joined, t.k, t.admitted, capacity, predict)
    requires HitsDone(t.joined, t.started, t.admitted, eos)
    ensures Timely(a, first) && Brisk(a) ==> Timely(b, last) && Brisk(b)
    ensures Timely(a, first) && Brisk(a) && Alive(a) != {} ==> Smaller(a, first, b, last)
  {
    hide Inv, Advance, Admits, Decoded, Admitting, HitsDone, Timely, Brisk, Alive, Smaller;
    if Timely(a, first) && Brisk(a) {
      AdvanceKeeps(a, first, t, middle, b, last);
      if Alive(a) != {} { IterationShrinks(a, first, t, middle, b, last, capacity, predict, eos); }
    }
  }

  lemma TasksAreActive(st: State, rows: seq<Plan>, plans: seq<Plan>)
    requires RowsOk(st, rows, map[], false) && PrefillPlans(st.gens, st.active, plans)
    ensures forall plan | plan in Tasks(rows + plans) :: plan.count > 0 && plan.id in st.active
  {
    hide Ready;
    forall plan | plan in rows ensures plan.count > 0 && plan.id in st.active {
      assert RowReady(st, plan);
      RowReadyFacts(st, plan);
    }
  }

  // ---- clients ----------------------------------------------------------------------------

  // A new arrival, queued or rejected, makes nobody wait.
  lemma ArrivalIsSteady(st: State, id: string, g: Generation, queue: seq<string>, epoch: nat)
    requires id !in st.active && !g.recomputing
    ensures var w := st.(gens := st.gens[id := g], waiting := queue);
            (Timely(st, epoch) ==> Timely(w, epoch)) && (Brisk(st) ==> Brisk(w))
  {
    hide Remaining;
  }

  // Neither does a request that is taken out.
  lemma DepartureIsSteady(a: State, b: State, id: string, before: nat, after: nat)
    requires id in a.gens && b.active == a.active - {id} && after == before + if id in a.active then 1 else 0
    requires id in b.gens && !b.gens[id].Live() && b.gens == a.gens[id := b.gens[id]]
    ensures (Timely(a, before) ==> Timely(b, after)) && (Brisk(a) ==> Brisk(b))
  {
    hide Remaining;
  }

  lemma SomebodyAlive(st: State, predict: seq<Slot> -> Token, eos: set<Token>)
    requires Inv(st, predict, eos) && (st.waiting != [] || st.active != {})
    ensures Alive(st) != {}
  {
    hide Inv;
    if st.waiting != [] {
      WaitingFacts(st, st.waiting[0], predict, eos);
      assert st.waiting[0] in Alive(st);
    } else {
      var x :| x in st.active;
      ActiveIsLive(st, x, predict, eos);
      assert x in Alive(st);
    }
  }

  lemma DeadMeansDone(st: State)
    requires Alive(st) == {}
    ensures forall x | x in st.gens :: !st.gens[x].Live()
  {
    forall x | x in st.gens ensures !st.gens[x].Live() { assert x !in Alive(st); }
  }

  // Every finished greedy request has exactly what plain greedy decoding gives.
  ghost predicate Faithful(gens: map<string, Generation>, predict: seq<Slot> -> Token, eos: set<Token>) {
    forall id | id in gens && gens[id].phase.Finished? && gens[id].greedy ::
      gens[id].outputs == GreedyRun(ModelOf(predict), gens[id].prompt, gens[id].Ends(eos), gens[id].maxNew)
  }

  lemma AllFaithful(st: State, predict: seq<Slot> -> Token, eos: set<Token>)
    requires Inv(st, predict, eos)
    ensures Faithful(st.gens, predict, eos)
  {
    hide Inv, GreedyRun;
    forall id | id in st.gens && st.gens[id].phase.Finished? && st.gens[id].greedy
      ensures st.gens[id].outputs == GreedyRun(ModelOf(predict), st.gens[id].prompt, st.gens[id].Ends(eos),
                                               st.gens[id].maxNew)
    {
      FinishedIsGreedyRun(st, predict, eos, id);
    }
  }
}
