// What speculation must report, told from the two models alone: rounds, proposals and agreements,
// without caches, masks, verification or rollback (engine/batching/batched_speculative.py and
// benchmarks/speculative/pair_screen.py count these while they run).
module SpeculationTallies {
  import opened Common
  import opened GreedyDecoding
  import opened DraftAcceptance

  // `agreed` counts what a draft got right, `accepted` how much of it was committed.
  datatype Tally = Tally(accepted: nat, proposed: nat, rounds: nat, agreed: nat)

  const NOTHING: Tally := Tally(0, 0, 0, 0)

  ghost function Plus(a: Tally, b: Tally): Tally {
    Tally(a.accepted + b.accepted, a.proposed + b.proposed, a.rounds + b.rounds, a.agreed + b.agreed)
  }

  // Prompt and output after `n` tokens.
  ghost function Reached(t: Model, prompt: seq<Token>, ends: set<Token>, n: nat): seq<Token> {
    prompt + GreedyRun(t, prompt, ends, n)
  }

  // ---- a batch in lockstep ----------------------------------------------------------------

  // Every row's agreement; a finished row has none.
  ghost function Shares(t: Model, d: Model, prompts: seq<seq<Token>>, ends: set<Token>, depth: nat, n: nat)
    : (r: seq<nat>)
    ensures |r| == |prompts|
    ensures forall i | 0 <= i < |r| ::
              r[i] == if Unfinished(t, prompts[i], ends, n) then Agreement(t, d, Reached(t, prompts[i], ends, n), depth)
                      else 0
  {
    seq(|prompts|, i requires 0 <= i < |prompts| =>
      if Unfinished(t, prompts[i], ends, n) then Agreement(t, d, Reached(t, prompts[i], ends, n), depth) else 0)
  }

  // A sum of numbers, of which each counts at most `cap`.
  ghost function Capped(shares: seq<nat>, cap: nat): nat {
    if shares == [] then 0 else Capped(shares[..|shares| - 1], cap) + Min(shares[|shares| - 1], cap)
  }

  ghost predicate AnyUnfinished(t: Model, prompts: seq<seq<Token>>, ends: set<Token>, n: nat) {
    exists i | 0 <= i < |prompts| :: Unfinished(t, prompts[i], ends, n)
  }

  // What every unfinished row has right, and one of them no more.
  ghost predicate LeastShare(t: Model, prompts: seq<seq<Token>>, ends: set<Token>, n: nat, shares: seq<nat>, a: nat)
    requires |shares| == |prompts|
  {
    && (exists i | 0 <= i < |prompts| :: Unfinished(t, prompts[i], ends, n) && shares[i] == a)
    && forall i | 0 <= i < |prompts| && Unfinished(t, prompts[i], ends, n) :: a <= shares[i]
  }

  lemma {:induction false} SomeLeast(t: Model, prompts: seq<seq<Token>>, ends: set<Token>, n: nat, shares: seq<nat>)
    returns (a: nat)
    requires |shares| == |prompts| && AnyUnfinished(t, prompts, ends, n)
    ensures LeastShare(t, prompts, ends, n, shares, a)
  {
    hide Unfinished;
    var i :| 0 <= i < |prompts| && Unfinished(t, prompts[i], ends, n);
    a := shares[i];
    while exists k | 0 <= k < |prompts| :: Unfinished(t, prompts[k], ends, n) && shares[k] < a
      invariant exists k | 0 <= k < |prompts| :: Unfinished(t, prompts[k], ends, n) && shares[k] == a
      decreases a
    {
      var k :| 0 <= k < |prompts| && Unfinished(t, prompts[k], ends, n) && shares[k] < a;
      a := shares[k];
    }
  }

  ghost function Least(t: Model, prompts: seq<seq<Token>>, ends: set<Token>, n: nat, shares: seq<nat>): (a: nat)
    requires |shares| == |prompts| && AnyUnfinished(t, prompts, ends, n)
    ensures LeastShare(t, prompts, ends, n, shares, a)
  {
    hide Unfinished;
    assert exists a: nat :: LeastShare(t, prompts, ends, n, shares, a) by {
      var a := SomeLeast(t, prompts, ends, n, shares);
    }
    var a: nat :| LeastShare(t, prompts, ends, n, shares, a);
    a
  }

  // Every row proposes to the full depth, finished or not.
  function PerRound(depth: nat, rows: nat): nat { depth * rows }

  // One round of the batch after `n` tokens.
  ghost function RoundTally(shares: seq<nat>, depth: nat, least: nat): Tally {
    Tally(Capped(shares, least + 1), PerRound(depth, |shares|), 1, Capped(shares, depth))
  }

  // All rounds from there on: each brings every unfinished row as far as all of them agree, and
  // one token further.
  ghost function BatchTally(t: Model, d: Model, prompts: seq<seq<Token>>, ends: set<Token>, max: nat, depth: nat,
                            n: nat): Tally
    decreases max - n
  {
    if n >= max || !AnyUnfinished(t, prompts, ends, n) then NOTHING
    else
      var shares := Shares(t, d, prompts, ends, depth, n);
      var least := Least(t, prompts, ends, n, shares);
      Plus(RoundTally(shares, depth, least), BatchTally(t, d, prompts, ends, max, depth, Min(n + least + 1, max)))
  }

  lemma LeastIsUnique(t: Model, prompts: seq<seq<Token>>, ends: set<Token>, n: nat, shares: seq<nat>, a: nat, b: nat)
    requires |shares| == |prompts|
    requires LeastShare(t, prompts, ends, n, shares, a) && LeastShare(t, prompts, ends, n, shares, b)
    ensures a == b
  {
    hide Unfinished;
  }

  // One round taken off.
  lemma BatchStep(t: Model, d: Model, prompts: seq<seq<Token>>, ends: set<Token>, max: nat, depth: nat, n: nat,
                  least: nat)
    requires n < max && LeastShare(t, prompts, ends, n, Shares(t, d, prompts, ends, depth, n), least)
    ensures BatchTally(t, d, prompts, ends, max, depth, n)
         == Plus(RoundTally(Shares(t, d, prompts, ends, depth, n), depth, least),
                 BatchTally(t, d, prompts, ends, max, depth, Min(n + least + 1, max)))
  {
    hide Unfinished, Capped;
    var shares := Shares(t, d, prompts, ends, depth, n);
    LeastIsUnique(t, prompts, ends, n, shares, least, Least(t, prompts, ends, n, shares));
  }

  lemma {:induction false} CappedFull(shares: seq<nat>, depth: nat, cap: nat)
    requires depth <= cap && forall i | 0 <= i < |shares| :: shares[i] == depth
    ensures Capped(shares, cap) == depth * |shares|
  {
    if shares != [] {
      CappedFull(shares[..|shares| - 1], depth, cap);
      assert depth * |shares| == depth * (|shares| - 1) + depth;
    }
  }

  lemma {:induction false} CappedBounds(shares: seq<nat>, cap: nat, depth: nat)
    requires forall i | 0 <= i < |shares| :: shares[i] <= depth
    ensures Capped(shares, cap) <= Capped(shares, depth) <= depth * |shares|
  {
    if shares != [] {
      CappedBounds(shares[..|shares| - 1], cap, depth);
      assert depth * |shares| == depth * (|shares| - 1) + depth;
    }
  }

  lemma RoundTotals(t: Model, d: Model, prompts: seq<seq<Token>>, ends: set<Token>, max: nat, depth: nat, n: nat)
    returns (next: nat)
    requires n < max && AnyUnfinished(t, prompts, ends, n)
    ensures n < next <= max
    ensures var tally, rest := BatchTally(t, d, prompts, ends, max, depth, n),
                               BatchTally(t, d, prompts, ends, max, depth, next);
            && tally.rounds == 1 + rest.rounds && tally.proposed == PerRound(depth, |prompts|) + rest.proposed
            && 0 <= tally.accepted - rest.accepted <= tally.agreed - rest.agreed <= PerRound(depth, |prompts|)
  {
    hide Agreement, GreedyRun, Capped;
    var shares := Shares(t, d, prompts, ends, depth, n);
    var least := Least(t, prompts, ends, n, shares);
    next := Min(n + least + 1, max);
    CappedBounds(shares, least + 1, depth);
  }

  // No more is committed than is right, and no more is right than is proposed.
  lemma {:induction false} BatchTotals(t: Model, d: Model, prompts: seq<seq<Token>>, ends: set<Token>, max: nat,
                                       depth: nat, n: nat)
    requires n <= max
    ensures var tally := BatchTally(t, d, prompts, ends, max, depth, n);
            && tally.accepted <= tally.agreed <= tally.proposed == PerRound(depth, |prompts|) * tally.rounds
            && tally.rounds <= max - n
    decreases max - n
  {
    hide BatchTally, AnyUnfinished, PerRound;
    var each := PerRound(depth, |prompts|);
    if n < max && AnyUnfinished(t, prompts, ends, n) {
      var next := RoundTotals(t, d, prompts, ends, max, depth, n);
      BatchTotals(t, d, prompts, ends, max, depth, next);
      var rounds := BatchTally(t, d, prompts, ends, max, depth, next).rounds;
      assert each * (rounds + 1) == each * rounds + each;
    } else {
      NothingTallied(t, d, prompts, ends, max, depth, n);
      assert each * 0 == 0;
    }
  }

  lemma NothingTallied(t: Model, d: Model, prompts: seq<seq<Token>>, ends: set<Token>, max: nat, depth: nat, n: nat)
    requires n >= max || !AnyUnfinished(t, prompts, ends, n)
    ensures BatchTally(t, d, prompts, ends, max, depth, n) == NOTHING
  {
  }

  // Rounds of `depth` proposals and one token of the target's own that cover so many tokens.
  ghost function RoundsFor(tokens: nat, depth: nat): nat {
    BlocksFor(tokens, depth + 1)
  }

  lemma NoRounds(depth: nat)
    ensures RoundsFor(0, depth) == 0
  {
    var k := BlocksFor(0, depth + 1);
    if k > 0 { MulMono(1, k, depth + 1); }
  }

  lemma OneRoundLess(n: nat, max: nat, depth: nat)
    requires n < max
    ensures RoundsFor(max - n, depth) == 1 + RoundsFor(max - Min(n + depth + 1, max), depth)
  {
    var tokens, size := max - n, depth + 1;
    var rest := if tokens <= size then 0 else tokens - size;
    var p, q := BlocksFor(tokens, size), BlocksFor(rest, size);
    assert (p - 1) * size == p * size - size && (q + 1) * size == q * size + size;
    if tokens <= size {
      NoRounds(depth);
      MulLess(p, 2, size);
    } else {
      MulLess(p - 1, q + 1, size);
      MulLess(q, p, size);
    }
  }

  // A model that drafts for itself needs one round for every `depth + 1` tokens; without ending
  // tokens exactly that many, and then every proposal is right and committed.
  lemma {:induction false} OwnBatch(t: Model, prompts: seq<seq<Token>>, ends: set<Token>, max: nat, depth: nat, n: nat)
    requires n <= max
    ensures var tally := BatchTally(t, t, prompts, ends, max, depth, n);
            && tally.rounds <= RoundsFor(max - n, depth)
            && (ends == {} && prompts != [] ==>
                  && tally.rounds == RoundsFor(max - n, depth)
                  && tally.accepted == tally.agreed == tally.proposed)
    decreases max - n
  {
    if n < max && AnyUnfinished(t, prompts, ends, n) {
      hide BatchTally, AnyUnfinished, RoundsFor, PerRound;
      OwnBatchRound(t, prompts, ends, max, depth, n);
      OwnBatch(t, prompts, ends, max, depth, Min(n + depth + 1, max));
      OneRoundLess(n, max, depth);
    } else {
      hide RoundsFor;
      NoRounds(depth);
      assert ends == {} && prompts != [] ==> Unfinished(t, prompts[0], ends, n);
    }
  }

  lemma OwnBatchRound(t: Model, prompts: seq<seq<Token>>, ends: set<Token>, max: nat, depth: nat, n: nat)
    requires n < max && AnyUnfinished(t, prompts, ends, n)
    ensures var tally, rest := BatchTally(t, t, prompts, ends, max, depth, n),
                               BatchTally(t, t, prompts, ends, max, depth, Min(n + depth + 1, max));
            && tally.rounds == 1 + rest.rounds
            && (ends == {} ==>
                  && tally.proposed == PerRound(depth, |prompts|) + rest.proposed
                  && tally.accepted == PerRound(depth, |prompts|) + rest.accepted
                  && tally.agreed == PerRound(depth, |prompts|) + rest.agreed)
  {
    hide Agreement, GreedyRun, Capped, BatchTally;
    var shares := Shares(t, t, prompts, ends, depth, n);
    forall i | 0 <= i < |prompts| && Unfinished(t, prompts[i], ends, n) ensures shares[i] == depth {
      OwnAgreement(t, Reached(t, prompts[i], ends, n), depth);
    }
    assert LeastShare(t, prompts, ends, n, shares, depth);
    BatchStep(t, t, prompts, ends, max, depth, n, depth);
    if ends == {} {
      CappedFull(shares, depth, depth + 1);
      CappedFull(shares, depth, depth);
    }
  }

  // ---- one sequence -----------------------------------------------------------------------

  // The same for one sequence, whose rounds propose no more than the room that is left and end
  // with the first ending token.
  ghost function ScreenTally(t: Model, d: Model, prompt: seq<Token>, ends: set<Token>, max: nat, depth: nat, n: nat)
    : Tally
    decreases max - n
  {
    if n >= max || !Unfinished(t, prompt, ends, n) then NOTHING
    else
      var context, width := Reached(t, prompt, ends, n), Min(depth, max - n);
      var k := Agreement(t, d, context, width);
      Plus(Tally(Min(k, |GreedyRun(t, context, ends, k + 1)|), width, 1, k),
           ScreenTally(t, d, prompt, ends, max, depth, Min(n + k + 1, max)))
  }

  // One round of a sequence that drafts for itself takes all it proposes, up to an ending token.
  lemma OwnRound(t: Model, prompt: seq<Token>, ends: set<Token>, max: nat, depth: nat, n: nat)
    requires n < max && Unfinished(t, prompt, ends, n)
    ensures var width := Min(depth, max - n);
            var tally, rest := ScreenTally(t, t, prompt, ends, max, depth, n),
                               ScreenTally(t, t, prompt, ends, max, depth, Min(n + depth + 1, max));
            && tally.rounds == 1 + rest.rounds && tally.proposed == width + rest.proposed
            && (ends == {} ==> tally.accepted == width + rest.accepted)
  {
    hide Agreement, GreedyRun, Unfinished;
    var context, width := Reached(t, prompt, ends, n), Min(depth, max - n);
    OwnAgreement(t, context, width);
    UncutRun(t, context, width + 1);
    assert Min(n + width + 1, max) == Min(n + depth + 1, max);
  }

  lemma {:induction false} OwnScreen(t: Model, prompt: seq<Token>, ends: set<Token>, max: nat, depth: nat, n: nat)
    requires n <= max
    ensures var tally := ScreenTally(t, t, prompt, ends, max, depth, n);
            && tally.rounds <= RoundsFor(max - n, depth)
            && (ends == {} ==> tally.rounds == RoundsFor(max - n, depth) && tally.accepted == tally.proposed)
    decreases max - n
  {
    hide GreedyRun, Agreement, RoundsFor;
    if n < max && Unfinished(t, prompt, ends, n) {
      hide ScreenTally, Unfinished;
      OwnRound(t, prompt, ends, max, depth, n);
      OwnScreen(t, prompt, ends, max, depth, Min(n + depth + 1, max));
      OneRoundLess(n, max, depth);
    } else {
      NoRounds(depth);
    }
  }
}
