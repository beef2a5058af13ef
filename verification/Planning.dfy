// Round-robin planning of prefill chunks (engine/scheduler/scheduler.py, `plan_prefill`).
module PrefillPlanning {
  import opened Common
  import opened Lifecycle
  import opened Batching

  function Remaining(g: Generation): nat {
    if g.phase.Prefilling? && g.prefilled < |g.PrefillIds()| then |g.PrefillIds()| - g.prefilled else 0
  }

  function Least(a: nat, b: nat, c: nat): nat { Min(Min(a, b), c) }

  function Total(plans: seq<Plan>): nat {
    if plans == [] then 0 else Total(plans[..|plans| - 1]) + plans[|plans| - 1].count
  }

  // The first `visits` in line go to the back, in order.
  function Rotated(order: seq<string>, visits: nat): seq<string>
    requires visits <= |order|
  {
    order[visits..] + order[..visits]
  }

  // The others keep their places.
  function Dropped(order: seq<string>, id: string): (r: seq<string>)
    ensures Subsequence(r, order) && forall x :: x in r <==> x in order && x != id
  {
    if order == [] then []
    else
      var last, rest := order[|order| - 1], Dropped(order[..|order| - 1], id);
      assert order == order[..|order| - 1] + [last];
      if last == id then
        SubsequenceSkips(rest, order[..|order| - 1], last);
        rest
      else
        SubsequenceTakes(rest, order[..|order| - 1], last);
        rest + [last]
  }

  lemma {:induction false} DroppedDistinct(order: seq<string>, id: string)
    requires Distinct(order)
    ensures Distinct(Dropped(order, id))
  {
    if order != [] {
      var rest := Dropped(order[..|order| - 1], id);
      DroppedDistinct(order[..|order| - 1], id);
      assert forall i | 0 <= i < |rest| :: rest[i] in rest && rest[i] in order[..|order| - 1];
    }
  }

  lemma {:induction false} NothingToDrop(order: seq<string>, id: string)
    requires id !in order
    ensures Dropped(order, id) == order
  {
    if order != [] {
      assert order == order[..|order| - 1] + [order[|order| - 1]];
      NothingToDrop(order[..|order| - 1], id);
    }
  }

  // Those of these requests that have something left to prefill, in order.
  function Unfilled(gens: map<string, Generation>, order: seq<string>): (r: seq<string>)
    requires forall x | x in order :: x in gens
    ensures Subsequence(r, order) && forall x :: x in r <==> x in order && Remaining(gens[x]) > 0
  {
    if order == [] then []
    else
      var last := order[|order| - 1];
      assert order == order[..|order| - 1] + [last];
      var rest := Unfilled(gens, order[..|order| - 1]);
      if Remaining(gens[last]) > 0 then
        SubsequenceTakes(rest, order[..|order| - 1], last);
        rest + [last]
      else
        SubsequenceSkips(rest, order[..|order| - 1], last);
        rest
  }

  lemma {:induction false} UnfilledDistinct(gens: map<string, Generation>, order: seq<string>)
    requires Distinct(order) && forall x | x in order :: x in gens
    ensures Distinct(Unfilled(gens, order))
  {
    if order != [] {
      var rest := Unfilled(gens, order[..|order| - 1]);
      UnfilledDistinct(gens, order[..|order| - 1]);
      assert forall i | 0 <= i < |rest| :: rest[i] in rest && rest[i] in order[..|order| - 1];
    }
  }

  // A chunk for one request; only an exhausted budget makes it shorter than it could be.
  ghost predicate ChunkOf(gens: map<string, Generation>, plan: Plan, id: string, chunk: nat, exhausted: bool) {
    && plan.id == id && id in gens
    && 0 < plan.count <= Min(Remaining(gens[id]), chunk)
    && (!exhausted ==> plan.count == Min(Remaining(gens[id]), chunk))
  }

  // One chunk for every visited request that needs one, in order and within the budget; only the
  // last one may be cut short.
  ghost predicate RoundRobin(gens: map<string, Generation>, visited: seq<string>, plans: seq<Plan>, chunk: nat,
                             budget: nat)
  {
    && (forall x | x in visited :: x in gens)
    && |plans| == |Unfilled(gens, visited)|
    && (forall i | 0 <= i < |plans| ::
          ChunkOf(gens, plans[i], Unfilled(gens, visited)[i], chunk, i == |plans| - 1 && Total(plans) == budget))
    && Total(plans) <= budget
  }

  lemma NothingVisited(gens: map<string, Generation>, chunk: nat, budget: nat)
    ensures RoundRobin(gens, [], [], chunk, budget) && Total([]) == 0
  {
  }

  lemma NewChunk(gens: map<string, Generation>, id: string, count: nat, chunk: nat, left: nat)
    requires id in gens && count == Least(Remaining(gens[id]), chunk, left) && count > 0
    ensures ChunkOf(gens, Plan(id, count), id, chunk, count == left)
  {
  }

  // One more visit, with some budget left before it.
  lemma OneVisit(gens: map<string, Generation>, order: seq<string>, i: nat, plans: seq<Plan>, chunk: nat, budget: nat)
    requires i < |order| && order[i] in gens && RoundRobin(gens, order[..i], plans, chunk, budget)
    requires Total(plans) < budget
    requires chunk > 0
    ensures var count := Least(Remaining(gens[order[i]]), chunk, budget - Total(plans));
            var next := if count > 0 then plans + [Plan(order[i], count)] else plans;
            && RoundRobin(gens, order[..i + 1], next, chunk, budget)
            && Total(next) == Total(plans) + count
  {
    hide Remaining, Unfilled, ChunkOf;
    var count := Least(Remaining(gens[order[i]]), chunk, budget - Total(plans));
    var next := plans + [Plan(order[i], count)];
    var before, now := Unfilled(gens, order[..i]), Unfilled(gens, order[..i + 1]);
    UnfilledGrows(gens, order, i);
    if count > 0 {
      assert next[..|plans|] == plans;
      forall j | 0 <= j < |next|
        ensures ChunkOf(gens, next[j], now[j], chunk, j == |next| - 1 && Total(next) == budget)
      {
        if j < |plans| {
          assert ChunkOf(gens, plans[j], before[j], chunk, false);
        } else {
          NewChunk(gens, order[i], count, chunk, budget - Total(plans));
        }
      }
    }
  }

  lemma UnfilledGrows(gens: map<string, Generation>, order: seq<string>, i: nat)
    requires i < |order| && order[i] in gens && forall x | x in order[..i] :: x in gens
    ensures forall x | x in order[..i + 1] :: x in gens
    ensures Unfilled(gens, order[..i + 1])
         == Unfilled(gens, order[..i]) + if Remaining(gens[order[i]]) > 0 then [order[i]] else []
  {
    assert order[..i + 1] == order[..i] + [order[i]] && order[..i + 1][..i] == order[..i];
  }

  lemma NotRotated(order: seq<string>)
    ensures Rotated(order, 0) == order
  {
  }

  lemma RotatedOnce(order: seq<string>, i: nat)
    requires i < |order|
    ensures |Rotated(order, i)| == |order| && Rotated(order, i)[0] == order[i]
    ensures Rotated(order, i)[1..] + [order[i]] == Rotated(order, i + 1)
  {
  }

  lemma RotatedFacts(order: seq<string>, visits: nat)
    requires visits <= |order| && Distinct(order)
    ensures |Rotated(order, visits)| == |order| && Distinct(Rotated(order, visits))
    ensures forall x :: x in Rotated(order, visits) <==> x in order
  {
    assert order == order[..visits] + order[visits..];
  }

  // What the batch needs to know about a plan.
  lemma RoundRobinIsPlan(gens: map<string, Generation>, active: set<string>, visited: seq<string>, plans: seq<Plan>,
                         chunk: nat, budget: nat)
    requires RoundRobin(gens, visited, plans, chunk, budget) && Distinct(visited)
    requires forall x | x in visited :: x in active
    ensures PrefillPlans(gens, active, plans)
  {
    UnfilledDistinct(gens, visited);
    forall plan | plan in plans
      ensures plan.id in active && plan.id in gens && gens[plan.id].phase.Prefilling? && plan.count > 0
      ensures gens[plan.id].prefilled + plan.count <= |gens[plan.id].PrefillIds()|
    {
      var i :| 0 <= i < |plans| && plans[i] == plan;
      assert Unfilled(gens, visited)[i] in Unfilled(gens, visited);
    }
  }

  // No plan with budget to spare: everybody was visited, and nobody needs a chunk.
  lemma NobodyNeedsChunk(gens: map<string, Generation>, order: seq<string>, visits: nat, chunk: nat, budget: nat)
    requires visits <= |order| && RoundRobin(gens, order[..visits], [], chunk, budget) && budget > 0
    requires visits < |order| ==> Total([]) == budget
    ensures forall x | x in order :: x in gens && Remaining(gens[x]) == 0
  {
    hide Remaining;
    assert order[..visits] == order;
    forall x | x in order ensures Remaining(gens[x]) == 0 {
      assert x !in Unfilled(gens, order);
    }
  }

  // No starvation: a request that needs a chunk and gets none had every earlier one in line
  // served, and is strictly closer to the front afterwards.
  lemma ClosesIn(gens: map<string, Generation>, order: seq<string>, visits: nat, plans: seq<Plan>, chunk: nat,
                 budget: nat, place: nat)
    requires visits <= |order| && RoundRobin(gens, order[..visits], plans, chunk, budget) && budget > 0
    requires visits < |order| ==> Total(plans) == budget
    requires place < |order| && order[place] in gens && Remaining(gens[order[place]]) > 0
    ensures || (exists plan :: plan in plans && plan.id == order[place])
            || (0 < visits <= place && Rotated(order, visits)[place - visits] == order[place])
  {
    if place < visits {
      assert order[place] == order[..visits][place];
      assert order[place] in Unfilled(gens, order[..visits]);
      var i :| 0 <= i < |plans| && Unfilled(gens, order[..visits])[i] == order[place];
      assert plans[i] in plans;
    }
  }
}
