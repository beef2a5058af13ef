// How requests give way to one another: newest first, keeping every token they produced
// (engine/scheduler/scheduler.py, engine/runtime/request.py).
module Yielding {
  import opened Common
  import opened Ownership
  import opened Paging
  import opened PagedStore
  import opened GreedyDecoding
  import opened Lifecycle
  import opened Arrival

  function KeyOf(gens: map<string, Generation>, id: string): Key
    requires id in gens
  {
    Key(gens[id].created, id)
  }

  // Arrived before: created earlier or, at the same time, under the smaller id.
  ghost predicate Earlier(gens: map<string, Generation>, x: string, y: string)
    requires x in gens && y in gens
  {
    || gens[x].created < gens[y].created
    || (gens[x].created == gens[y].created && exists k: nat :: DiffersAt(x, y, k))
  }

  lemma BeforeIsEarlier(gens: map<string, Generation>, x: string, y: string)
    requires x in gens && y in gens
    ensures Before(KeyOf(gens, x), KeyOf(gens, y)) <==> Earlier(gens, x, y)
  {
    BeforeMeans(KeyOf(gens, x), KeyOf(gens, y));
  }

  // Nobody among these arrived later.
  ghost predicate LastOf(gens: map<string, Generation>, ids: set<string>, id: string) {
    id in ids && ids <= gens.Keys && forall x | x in ids && x != id :: Earlier(gens, x, id)
  }

  lemma NewestIsLast(st: State, id: string)
    requires Newest(st, id)
    ensures LastOf(st.gens, st.active, id)
  {
    forall x | x in st.active && x != id ensures Earlier(st.gens, x, id) { BeforeIsEarlier(st.gens, x, id); }
  }

  lemma LastIsNewest(st: State, id: string)
    requires LastOf(st.gens, st.active, id)
    ensures Newest(st, id)
  {
    forall x | x in st.active && x != id ensures Before(KeyOf(st.gens, x), KeyOf(st.gens, id)) {
      BeforeIsEarlier(st.gens, x, id);
    }
  }

  // Of these requests some went, each of them after whoever is left and after the requester.
  ghost predicate LatestWent(gens: map<string, Generation>, before: set<string>, after: set<string>, id: string) {
    && after <= before <= gens.Keys && id in before
    && forall x, y | x in before && x !in after && (y in after || (y == id && x != id)) :: Earlier(gens, y, x)
  }

  lemma YieldedInOrder(a: State, b: State, id: string, epoch: nat)
    requires Yielded(a, b, id, epoch)
    ensures LatestWent(a.gens, a.active, b.active, id)
  {
    hide Undisturbed, Before;
    forall x, y | x in a.active && x !in b.active && (y in b.active || (y == id && x != id))
      ensures Earlier(a.gens, y, x)
    {
      BeforeIsEarlier(a.gens, y, x);
    }
  }

  // ---- what never happens to a request --------------------------------------------------

  // Its parameters stay, its tokens are only ever added to, and a terminal request is frozen.
  ghost predicate Continues(a: Generation, b: Generation) {
    && b.created == a.created && b.prompt == a.prompt && b.maxNew == a.maxNew && b.greedy == a.greedy
    && b.stops == a.stops && b.ignoreEos == a.ignoreEos
    && a.outputs <= b.outputs
    && (!a.Live() ==> b == a)
    && (b.reason.InvalidPrefixEntry? ==> a.reason.InvalidPrefixEntry?)
  }

  ghost predicate Evolves(a: map<string, Generation>, b: map<string, Generation>) {
    forall id | id in a :: id in b && Continues(a[id], b[id])
  }

  lemma EvolvesOn(a: map<string, Generation>, b: map<string, Generation>, c: map<string, Generation>)
    requires Evolves(a, b) && Evolves(b, c)
    ensures Evolves(a, c)
  {
  }

  // How a request ends other than by its client: with its last token, for lack of memory, or
  // because it could never fit into that many tokens.
  ghost predicate Ending(g: Generation, h: Generation, capacity: int) {
    || h.phase.Finished?
    || (h.phase.Failed? && h.reason.KvPoolExhausted?)
    || (h.phase.Rejected? && h.reason.KvCapacityExceeded? && |g.prompt| + g.maxNew > capacity)
  }

  ghost predicate Endings(a: map<string, Generation>, b: map<string, Generation>, capacity: int) {
    forall x | x in a && x in b && a[x].Live() && !b[x].Live() :: Ending(a[x], b[x], capacity)
  }

  lemma EndingsOn(a: map<string, Generation>, b: map<string, Generation>, c: map<string, Generation>, capacity: int)
    requires Evolves(a, b) && Evolves(b, c) && Endings(a, b, capacity) && Endings(b, c, capacity)
    ensures Endings(a, c, capacity)
  {
    forall x | x in a && x in c && a[x].Live() && !c[x].Live() ensures Ending(a[x], c[x], capacity) {
      assert Continues(a[x], b[x]) && Continues(b[x], c[x]);
    }
  }

  // ---- the progress epoch -----------------------------------------------------------------

  // Some request reached a terminal state.
  ghost predicate SomeEnded(a: map<string, Generation>, b: map<string, Generation>) {
    exists x | x in a && x in b :: a[x].Live() && !b[x].Live()
  }

  // The epoch only advances when a request reaches a terminal state, and until then the engine
  // does not run idle.
  ghost predicate Ticked(a: State, before: nat, b: State, after: nat) {
    && before <= after && (after != before ==> SomeEnded(a.gens, b.gens))
    && (after == before && a.active != {} ==> b.active != {})
  }

  lemma TickedOn(a: State, first: nat, b: State, second: nat, c: State, third: nat)
    requires Ticked(a, first, b, second) && Ticked(b, second, c, third)
    requires Evolves(a.gens, b.gens) && Evolves(b.gens, c.gens) && b.gens.Keys == a.gens.Keys
    ensures Ticked(a, first, c, third)
  {
    if SomeEnded(a.gens, b.gens) {
      var x :| x in a.gens && x in b.gens && a.gens[x].Live() && !b.gens[x].Live();
      assert Continues(b.gens[x], c.gens[x]);
    }
    if SomeEnded(b.gens, c.gens) {
      var x :| x in b.gens && x in c.gens && b.gens[x].Live() && !c.gens[x].Live();
      assert Continues(a.gens[x], b.gens[x]);
    }
  }

  // One active request stayed, or ended.
  lemma OneTicked(a: State, before: nat, b: State, after: nat, id: string)
    requires id in a.gens && id in b.gens && a.gens[id].Live()
    requires (after == before && b.active == a.active) || (after == before + 1 && !b.gens[id].Live())
    ensures Ticked(a, before, b, after)
  {
  }

  // ---- giving way -------------------------------------------------------------------------

  // The requester `id` looked for room: some strictly newer requests went back to the queue,
  // perhaps the requester itself if an older one goes on; everybody else kept everything.
  ghost predicate Yielded(a: State, b: State, id: string, epoch: nat) {
    && b.reserved == a.reserved && b.gens.Keys == a.gens.Keys && id in a.active
    && b.active <= a.active <= a.gens.Keys
    && (forall x | x in a.gens && (x !in a.active || x in b.active) :: b.gens[x] == a.gens[x])
    && (forall x | x in b.active && x != id :: Undisturbed(a.store, b.store, x))
    && (forall x | x in a.active && x !in b.active :: Displaced(a, b, id, x, epoch))
    && (id !in b.active ==> exists x | x in b.active :: Before(KeyOf(a.gens, x), KeyOf(a.gens, id)))
    && NewestGone(a, b)
  }

  // Whoever is left arrived before whoever went.
  ghost predicate NewestGone(a: State, b: State) {
    forall x, y | x in a.active && x !in b.active && y in b.active ::
      x in a.gens && y in a.gens && Before(KeyOf(a.gens, y), KeyOf(a.gens, x))
  }

  lemma OneMoreGone(a: State, b: State, c: State, victim: string)
    requires NewestGone(a, b) && Newest(b, victim) && c.active == b.active - {victim}
    requires forall x | x in b.active :: x in a.gens && x in b.gens && KeyOf(b.gens, x) == KeyOf(a.gens, x)
    ensures NewestGone(a, c)
  {
    hide KeyOf, Before;
  }

  // Back in the queue, having arrived after the requester unless it is the requester.
  ghost predicate Displaced(a: State, b: State, id: string, x: string, epoch: nat)
    requires id in a.gens && x in a.gens && x in b.gens
  {
    b.gens[x] == a.gens[x].Preempted(epoch) && (x != id ==> Before(KeyOf(a.gens, id), KeyOf(a.gens, x)))
  }

  ghost predicate Oldest(st: State, id: string) {
    && st.active <= st.gens.Keys && id in st.active
    && forall x | x in st.active && x != id :: Before(KeyOf(st.gens, id), KeyOf(st.gens, x))
  }

  ghost predicate Newest(st: State, id: string) {
    && st.active <= st.gens.Keys && id in st.active
    && forall x | x in st.active && x != id :: Before(KeyOf(st.gens, x), KeyOf(st.gens, id))
  }

  // The oldest active request is never displaced, whoever asks.
  lemma OldestStays(a: State, b: State, id: string, epoch: nat, oldest: string)
    requires Yielded(a, b, id, epoch) && Oldest(a, oldest)
    ensures oldest in b.active
  {
    if oldest !in b.active {
      if oldest == id {
        var x :| x in b.active && Before(KeyOf(a.gens, x), KeyOf(a.gens, id));
        ArrivalOrder(KeyOf(a.gens, x), KeyOf(a.gens, id), KeyOf(a.gens, x));
      } else {
        ArrivalOrder(KeyOf(a.gens, id), KeyOf(a.gens, oldest), KeyOf(a.gens, id));
      }
    }
  }

  lemma YieldedNothing(st: State, id: string, epoch: nat)
    requires st.active <= st.gens.Keys && id in st.active
    requires forall x | x in st.active && x != id :: Undisturbed(st.store, st.store, x)
    ensures Yielded(st, st, id, epoch)
  {
  }

  // Making room in the store disturbs nobody's row.
  lemma YieldedStore(a: State, b: State, after: Store, id: string, epoch: nat)
    requires Yielded(a, b, id, epoch) && OthersUndisturbed(b.store, after, id)
    requires b.active <= b.store.tables.Keys
    ensures Yielded(a, b.(store := after), id, epoch)
  {
    forall x | x in b.active && x != id ensures Undisturbed(a.store, after, x) {
      UndisturbedTransitive(a.store, b.store, after, x);
    }
  }

  // The newest active request gives way.
  lemma YieldedMore(a: State, b: State, c: State, id: string, victim: string, epoch: nat)
    requires Yielded(a, b, id, epoch) && id in b.active && Newest(b, victim)
    requires victim == id ==> b.active != {id}
    requires c.reserved == b.reserved && c.active == b.active - {victim}
    requires c.gens == b.gens[victim := b.gens[victim].Preempted(epoch)]
    requires OthersUndisturbed(b.store, c.store, victim)
    requires b.active <= b.store.tables.Keys
    ensures Yielded(a, c, id, epoch)
  {
    hide Undisturbed, KeyOf, Before, OthersUndisturbed, Displaced, Newest, NewestGone;
    KeysAgree(a, b, id, epoch);
    OneMoreGone(a, b, c, victim);
    assert victim in b.active && b.active <= b.gens.Keys by { NewestIsActive(b, victim); }
    forall x | x in c.active && x != id ensures Undisturbed(a.store, c.store, x) {
      OneUndisturbed(b.store, c.store, victim, x);
      UndisturbedTransitive(a.store, b.store, c.store, x);
    }
    forall x | x in a.active && x !in c.active ensures Displaced(a, c, id, x, epoch) {
      StillDisplaced(a, b, c, id, victim, x, epoch);
    }
    if victim == id {
      var x :| x in b.active && x != id;
      assert Before(KeyOf(b.gens, x), KeyOf(b.gens, id)) by { NewestAfter(b, victim, x); }
    }
  }

  lemma NewestIsActive(st: State, victim: string)
    requires Newest(st, victim)
    ensures victim in st.active && st.active <= st.gens.Keys
  {
  }

  lemma NewestAfter(st: State, victim: string, x: string)
    requires Newest(st, victim) && x in st.active && x != victim
    ensures Before(KeyOf(st.gens, x), KeyOf(st.gens, victim))
  {
  }

  lemma StillDisplaced(a: State, b: State, c: State, id: string, victim: string, x: string, epoch: nat)
    requires Yielded(a, b, id, epoch) && id in b.active && Newest(b, victim) && x in a.active
    requires c.gens == b.gens[victim := b.gens[victim].Preempted(epoch)] && (x !in b.active || x == victim)
    ensures Displaced(a, c, id, x, epoch)
  {
    hide Undisturbed, Before;
    assert id in b.gens && b.gens[id] == a.gens[id];
  }

  lemma OneUndisturbed(a: Store, b: Store, id: string, other: string)
    requires OthersUndisturbed(a, b, id) && other in a.tables && other != id
    ensures Undisturbed(a, b, other)
  {
  }

  lemma KeysAgree(a: State, b: State, id: string, epoch: nat)
    requires Yielded(a, b, id, epoch)
    ensures forall x | x in b.active :: x in a.gens && x in b.gens && KeyOf(b.gens, x) == KeyOf(a.gens, x)
  {
  }

  // A yielded request goes ahead of the first queued request that arrived later.
  ghost predicate QueuedInOrder(gens: map<string, Generation>, queue: seq<string>, id: string, after: seq<string>) {
    && id in gens && (forall x | x in queue :: x in gens)
    && exists k | 0 <= k <= |queue| ::
         && after == queue[..k] + [id] + queue[k..]
         && (forall i | 0 <= i < k :: Earlier(gens, queue[i], id))
         && (k < |queue| ==> Earlier(gens, id, queue[k]))
  }

  lemma ActiveIsNotQueued(st: State, id: string, predict: seq<Slot> -> Token, eos: set<Token>)
    requires Inv(st, predict, eos) && id in st.active
    ensures id in st.gens && st.gens[id].Live() && GenOk(st.gens[id], predict, eos)
    ensures id !in st.waiting && Distinct(st.waiting) && forall x | x in st.waiting :: x in st.gens
  {
    hide RowOk, Consistent, GenOk;
    assert Placed(st, id);
  }

  // ---- a whole batch looking for room -----------------------------------------------------

  // What requests in a batch find after everybody looked for room: survivors are untouched as
  // requests; the others yielded, or one failed because it was alone and still lacked room.
  ghost predicate Thinned(a: State, b: State, epoch: nat) {
    && b.reserved == a.reserved && b.gens.Keys == a.gens.Keys && b.active <= a.active <= a.gens.Keys
    && (forall x | x in a.gens && (x !in a.active || x in b.active) :: b.gens[x] == a.gens[x])
    && (forall x | x in a.active && x !in b.active ::
          || b.gens[x] == a.gens[x].Preempted(epoch)
          || (b.active == {} && b.gens[x] == a.gens[x].(phase := Failed, reason := KvPoolExhausted)))
    && (forall x | Oldest(a, x) :: x in b.active || b.active == {})
    && (b.active == {} && a.active != {} ==> exists x | Oldest(a, x) :: b.gens[x].phase.Failed?)
  }

  lemma ThinnedIsEvolution(a: State, b: State, epoch: nat)
    requires Thinned(a, b, epoch)
    requires forall x | x in a.active :: a.gens[x].Live()
    ensures Evolves(a.gens, b.gens)
  {
  }

  // Among finitely many requests one arrived first and one arrived last.
  lemma {:induction false} ExtremeArrival(gens: map<string, Generation>, ids: set<string>, last: bool)
    returns (id: string)
    requires ids != {} && ids <= gens.Keys
    ensures id in ids
    ensures forall x | x in ids && x != id ::
              if last then Before(KeyOf(gens, x), KeyOf(gens, id)) else Before(KeyOf(gens, id), KeyOf(gens, x))
    decreases ids
  {
    id :| id in ids;
    if ids != {id} {
      var other := ExtremeArrival(gens, ids - {id}, last);
      var mine, theirs := KeyOf(gens, id), KeyOf(gens, other);
      var best := if last == Before(mine, theirs) then other else id;
      ArrivalOrder(mine, theirs, mine);
      forall x | x in ids && x != best
        ensures if last then Before(KeyOf(gens, x), KeyOf(gens, best)) else Before(KeyOf(gens, best), KeyOf(gens, x))
      {
        ArrivalOrder(KeyOf(gens, x), theirs, mine);
        ArrivalOrder(mine, theirs, KeyOf(gens, x));
      }
      id := best;
    }
  }

  lemma ThinnedNothing(st: State, epoch: nat)
    requires st.active <= st.gens.Keys
    ensures Thinned(st, st, epoch)
  {
  }

  // One requester's search for room, alone, thins the batch.
  lemma YieldedIsThinned(a: State, b: State, id: string, epoch: nat)
    requires Yielded(a, b, id, epoch)
    ensures Thinned(a, b, epoch) && b.active != {}
  {
    hide Undisturbed;
    forall x | Oldest(a, x) ensures x in b.active { OldestStays(a, b, id, epoch, x); }
  }

  // Only the oldest of all can fail for lack of memory, and only when it is alone.
  lemma FailedIsThinned(a: State, b: State, c: State, id: string, epoch: nat)
    requires Yielded(a, b, id, epoch) && b.active == {id}
    requires c.reserved == b.reserved && c.active == {}
    requires c.gens == b.gens[id := b.gens[id].(phase := Failed, reason := KvPoolExhausted)]
    ensures Thinned(a, c, epoch)
  {
    hide Undisturbed;
    forall x | x in a.active && x != id ensures Before(KeyOf(a.gens, id), KeyOf(a.gens, x)) { assert x !in b.active; }
    assert Oldest(a, id);
  }

  lemma ThinnedTwice(a: State, b: State, c: State, epoch: nat, later: nat)
    requires Thinned(a, b, epoch) && Thinned(b, c, later) && (later == epoch || b.active == {})
    ensures Thinned(a, c, epoch)
  {
    forall x | Oldest(a, x) ensures x in c.active || c.active == {} {
      if x in b.active { assert Oldest(b, x); }
    }
    if c.active == {} && a.active != {} && b.active != {} {
      var first := ExtremeArrival(a.gens, a.active, false);
      assert Oldest(a, first) && Oldest(b, first);
      var x :| Oldest(b, x) && c.gens[x].phase.Failed?;
      ArrivalOrder(KeyOf(b.gens, x), KeyOf(b.gens, first), KeyOf(b.gens, x));
    }
  }
}
