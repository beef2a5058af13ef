// What clients see of an engine: events, replies, and the requests after each of them
// (engine/scheduler/scheduler.py, engine/batching/continuous_batching.py).
module Histories {
  import opened Common
  import opened PagedStore
  import opened GreedyDecoding
  import opened Lifecycle
  import opened Arrival
  import opened Yielding

  type Requests = map<string, Generation>

  // What can happen to a serving engine from outside. An iteration comes with what the proposer
  // has to offer to each request.
  datatype Event =
    | Submission(id: string, prompt: seq<Token>, maxNew: nat, greedy: bool, stops: set<Token>, ignoreEos: bool,
                 created: nat)
    | Cancellation(id: string)
    | Iteration(offers: map<string, seq<Token>>)

  // The bounds an engine was set up with: queue, longest request (0 means unlimited), and tokens
  // that a single request can ever have.
  datatype Bounds = Bounds(maxWaiting: Option<nat>, maxModelLen: nat, capacity: int)

  // The request is what its client described.
  ghost predicate Describes(e: Event, g: Generation)
    requires e.Submission?
  {
    && g.prompt == e.prompt && g.maxNew == e.maxNew && g.greedy == e.greedy
    && g.stops == e.stops && g.ignoreEos == e.ignoreEos && g.created == e.created
  }

  ghost function Queued(gens: Requests): set<string> {
    set x | x in gens && gens[x].phase.Waiting?
  }

  ghost predicate LiveIn(gens: Requests, id: string) {
    id in gens && gens[id].Live()
  }

  // A submission is refused if it is malformed, too long or a duplicate; a full queue turns it
  // away; otherwise it waits, as described and without a token.
  ghost predicate Submitted(before: Requests, e: Event, r: Reply<bool>, after: Requests, bounds: Bounds)
    requires e.Submission?
  {
    && !r.Exhausted?
    && (r.Raised? <==> || e.id == "" || e.prompt == [] || e.maxNew == 0 || LiveIn(before, e.id)
                       || (bounds.maxModelLen > 0 && |e.prompt| + e.maxNew > bounds.maxModelLen))
    && (r.Raised? ==> after == before)
    && (r.Ok? ==>
          && (r.value <==> bounds.maxWaiting.None? || |Queued(before)| < bounds.maxWaiting.value)
          && e.id in after && after == before[e.id := after[e.id]]
          && Describes(e, after[e.id]) && after[e.id].outputs == []
          && if r.value then after[e.id].phase.Waiting?
             else after[e.id].phase.Rejected? && after[e.id].reason.QueueFull?)
  }

  // Whoever is queued or active can be cancelled.
  ghost predicate Withdrawn(before: Requests, id: string, r: Reply<bool>, after: Requests) {
    && !r.Exhausted? && (r.Raised? <==> !LiveIn(before, id))
    && (r.Raised? ==> after == before)
    && (r.Ok? ==> id in before && after == before[id := before[id].(phase := Cancelled, reason := CancelledByClient)])
  }

  // An iteration only adds tokens and ends requests, each for a reason of its own. The first
  // request in line gets a token if it decodes, or fails for lack of memory.
  ghost predicate Iterates(before: Requests, after: Requests, bounds: Bounds) {
    && after.Keys == before.Keys && Evolves(before, after) && Endings(before, after, bounds.capacity)
    && forall id | id in before && InFront(before, id) && before[id].phase.Decoding? ::
         |before[id].outputs| < |after[id].outputs| || (after[id].phase.Failed? && after[id].reason.KvPoolExhausted?)
  }

  lemma IteratesKeys(before: Requests, after: Requests, bounds: Bounds)
    requires Iterates(before, after, bounds)
    ensures after.Keys == before.Keys
  {
  }

  lemma NothingEnded(gens: Requests, bounds: Bounds)
    ensures Endings(gens, gens, bounds.capacity)
  {
  }

  // Nobody alive arrived earlier.
  ghost predicate InFront(gens: Requests, id: string) {
    LiveIn(gens, id) && forall x | LiveIn(gens, x) && x != id :: Earlier(gens, id, x)
  }

  ghost predicate Taken(before: Requests, e: Event, r: Reply<bool>, after: Requests, bounds: Bounds) {
    match e
    case Submission(_, _, _, _, _, _, _) => Submitted(before, e, r, after, bounds)
    case Cancellation(id) => Withdrawn(before, id, r, after)
    case Iteration(_) => r.Ok? && Iterates(before, after, bounds)
  }

  // A run: the requests before and after each event.
  ghost predicate Run(history: seq<Requests>, events: seq<Event>, replies: seq<Reply<bool>>, bounds: Bounds) {
    && |replies| == |events| && |history| == |events| + 1
    && forall i | 0 <= i < |events| :: Taken(history[i], events[i], replies[i], history[i + 1], bounds)
  }

  // A run from these requests to those.
  ghost predicate Leads(before: Requests, history: seq<Requests>, events: seq<Event>, replies: seq<Reply<bool>>,
                        after: Requests, bounds: Bounds)
  {
    Run(history, events, replies, bounds) && history[0] == before && history[|events|] == after
  }

  lemma LeadsOn(before: Requests, history: seq<Requests>, events: seq<Event>, replies: seq<Reply<bool>>,
                middle: Requests, bounds: Bounds, e: Event, r: Reply<bool>, after: Requests)
    requires Leads(before, history, events, replies, middle, bounds) && Taken(middle, e, r, after, bounds)
    ensures Leads(before, history + [after], events + [e], replies + [r], after, bounds)
  {
    hide Taken;
    RunGoesOn(history, events, replies, bounds, e, r, after);
  }

  lemma RunLeads(gens: Requests, bounds: Bounds)
    ensures Leads(gens, [gens], [], [], gens, bounds)
  {
  }

  lemma RunGoesOn(history: seq<Requests>, events: seq<Event>, replies: seq<Reply<bool>>, bounds: Bounds, e: Event,
                  r: Reply<bool>, after: Requests)
    requires Run(history, events, replies, bounds) && Taken(history[|events|], e, r, after, bounds)
    ensures Run(history + [after], events + [e], replies + [r], bounds)
  {
    hide Taken;
  }

  // The event submitted its id for good: whoever submitted it again was refused.
  ghost predicate LastSubmission(events: seq<Event>, replies: seq<Reply<bool>>, i: nat)
    requires |replies| == |events|
  {
    && i < |events| && events[i].Submission? && replies[i].Ok?
    && forall j | i < j < |events| && events[j].Submission? && events[j].id == events[i].id :: replies[j].Raised?
  }

  // What was submitted last under an id is what the engine goes on to serve, whatever else
  // happens.
  lemma {:induction false} SubmissionStands(history: seq<Requests>, events: seq<Event>, replies: seq<Reply<bool>>,
                                            bounds: Bounds, i: nat, n: nat)
    requires Run(history, events, replies, bounds) && LastSubmission(events, replies, i) && i < n <= |events|
    ensures events[i].id in history[n] && Describes(events[i], history[n][events[i].id])
    decreases n
  {
    hide Describes;
    assert Taken(history[n - 1], events[n - 1], replies[n - 1], history[n], bounds);
    if n > i + 1 {
      SubmissionStands(history, events, replies, bounds, i, n - 1);
      DescriptionStays(history[n - 1], events[n - 1], replies[n - 1], history[n], bounds, events[i]);
    }
  }

  lemma DescriptionStays(before: Requests, e: Event, r: Reply<bool>, after: Requests, bounds: Bounds, s: Event)
    requires Taken(before, e, r, after, bounds) && s.Submission? && s.id in before && Describes(s, before[s.id])
    requires e.Submission? && e.id == s.id ==> r.Raised?
    ensures s.id in after && Describes(s, after[s.id])
  {
    if e.Iteration? { assert Continues(before[s.id], after[s.id]); }
  }

  // What a client is owed: a finished greedy request has exactly the tokens of plain greedy
  // decoding of the submitted prompt, cut at the first submitted stop token, or end of sequence
  // unless that is to be ignored, or at the submitted limit; the reported reason is the right
  // one; and before it finishes it has a prefix of that.
  ghost predicate Answers(g: Generation, e: Event, m: Model, eos: set<Token>)
    requires e.Submission?
  {
    var greedy := GreedyRun(m, e.prompt, if e.ignoreEos then e.stops else e.stops + eos, e.maxNew);
    && Describes(e, g) && ReasonOk(g, eos) && |g.outputs| <= e.maxNew
    && (e.greedy ==> g.outputs <= greedy && (g.phase.Finished? ==> g.outputs == greedy))
  }

  // Everybody who submitted got that.
  ghost predicate AllAnswered(gens: Requests, events: seq<Event>, replies: seq<Reply<bool>>, m: Model, eos: set<Token>)
  {
    && |replies| == |events|
    && forall i: nat | LastSubmission(events, replies, i) ::
         events[i].id in gens && Answers(gens[events[i].id], events[i], m, eos)
  }

  lemma RunAnswers(before: Requests, history: seq<Requests>, events: seq<Event>, replies: seq<Reply<bool>>,
                   bounds: Bounds, st: State, predict: seq<Slot> -> Token, eos: set<Token>)
    requires Leads(before, history, events, replies, st.gens, bounds) && Inv(st, predict, eos)
    ensures AllAnswered(st.gens, events, replies, ModelOf(predict), eos)
  {
    hide Inv, Answers, Describes, Taken;
    forall i: nat | LastSubmission(events, replies, i)
      ensures events[i].id in st.gens && Answers(st.gens[events[i].id], events[i], ModelOf(predict), eos)
    {
      SubmissionStands(history, events, replies, bounds, i, |events|);
      AnswerIsOwed(st, events[i], predict, eos);
    }
  }

  lemma AnswerIsOwed(st: State, e: Event, predict: seq<Slot> -> Token, eos: set<Token>)
    requires Inv(st, predict, eos) && e.Submission? && e.id in st.gens && Describes(e, st.gens[e.id])
    ensures Answers(st.gens[e.id], e, ModelOf(predict), eos)
  {
    hide Consistent, RowOk, GreedyRun, Chain, ReasonOk;
    assert GenOk(st.gens[e.id], predict, eos);
    if e.greedy {
      if st.gens[e.id].phase.Finished? {
        FinishedIsGreedyRun(st, predict, eos, e.id);
      } else {
        RunningIsGreedyPrefix(st, predict, eos, e.id);
      }
    }
  }

  // ---- between the engine's fields and the requests as such -------------------------------

  lemma {:induction false} NamesSize(ids: seq<string>)
    requires Distinct(ids)
    ensures |set x | x in ids| == |ids|
  {
    if ids == [] {
      assert (set x | x in ids) == {};
    } else {
      var rest, last := ids[..|ids| - 1], ids[|ids| - 1];
      NamesSize(rest);
      assert ids == rest + [last] && last !in rest;
      assert (set x | x in ids) == (set x | x in rest) + {last};
    }
  }

  lemma QueueIsCounted(st: State, predict: seq<Slot> -> Token, eos: set<Token>)
    requires Inv(st, predict, eos)
    ensures |Queued(st.gens)| == |st.waiting|
    ensures forall id :: LiveIn(st.gens, id) <==> id in st.active || id in st.waiting
  {
    hide Consistent, RowOk, GenOk;
    forall id ensures LiveIn(st.gens, id) <==> id in st.active || id in st.waiting {
      if id in st.gens { assert Placed(st, id); }
    }
    forall x ensures x in Queued(st.gens) <==> x in st.waiting {
      if x in st.gens { assert Placed(st, x); }
    }
    assert Queued(st.gens) == set x | x in st.waiting;
    NamesSize(st.waiting);
  }
}
