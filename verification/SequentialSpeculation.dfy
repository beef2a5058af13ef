// Single-sequence speculation with capped round depth
// (benchmarks/speculative/pair_screen.py, `_generate` and `_crop`).
module SequentialSpeculation {
  import opened Common
  import opened GreedyDecoding
  import opened DraftAcceptance
  import opened PaddedBatches
  import opened SpeculationTallies

  datatype ScreenResult = ScreenResult(tokens: seq<Token>, accepted: nat, proposed: nat, rounds: nat)

  // A model's cache, mask and pending choice for one sequence.
  class DecodeState {
    var row: seq<Vector>
    var mask: seq<bool>
    var next: Token

    // The cache holds exactly the run of a context.
    ghost predicate Holds(context: seq<Token>)
      reads this
    {
      Clean(row, mask, context) && |mask| == |context| && mask == Ones(|mask|)
    }

    // And `next` is the model's choice after it.
    ghost predicate Behind(head: Head, context: seq<Token>)
      reads this
    {
      Holds(context) && next == Alone(head)(context)
    }

    constructor Prefill(head: Head, prompt: seq<Token>)
      requires prompt != []
      ensures Behind(head, prompt)
    {
      row, mask, next := [], [], 0;
      new;
      assert mask == Ones(0) && [] + prompt == prompt;
      var predictions := Run(head, prompt, []);
      assert prompt[..|prompt|] == prompt;
      next := predictions[|prompt| - 1];
    }

    // Runs tokens through the model behind what the cache holds.
    method Run(head: Head, tokens: seq<Token>, ghost context: seq<Token>) returns (predictions: seq<Token>)
      requires Holds(context)
      modifies this`row, this`mask
      ensures Holds(context + tokens) && |predictions| == |tokens|
      ensures forall j | 0 <= j < |tokens| :: predictions[j] == Alone(head)(context + tokens[..j + 1])
    {
      var wide := mask + Ones(|tokens|);
      RunsOn(row, mask, tokens, context);
      PredictsAlone(head, row, mask, tokens, context);
      row, predictions := ForwardRow(head, row, wide, tokens);
      mask := wide;
    }

    method Decode(head: Head, token: Token, ghost context: seq<Token>)
      requires Holds(context)
      modifies this
      ensures Behind(head, context + [token])
    {
      var predictions := Run(head, [token], context);
      assert [token][..1] == [token];
      next := predictions[0];
    }

    // Drops the end of the cache; growing by cropping is refused.
    method Crop(length: nat, ghost context: seq<Token>) returns (ok: bool)
      requires Holds(context)
      modifies this`row, this`mask
      ensures ok <==> length <= |context|
      ensures if ok then Holds(context[..length]) else Holds(context)
    {
      if length > |mask| {
        return false;
      }
      CropIsClean(row, mask, context, length);
      row, mask := row[..length], mask[..length];
      return true;
    }
  }

  // The tokens up to the first ending one.
  function UntilEnd(tokens: seq<Token>, eos: set<Token>): (r: seq<Token>)
    ensures r <= tokens && (tokens != [] ==> r != [])
    ensures r != [] ==> Open(r[..|r| - 1], eos)
    ensures |r| < |tokens| ==> r[|r| - 1] in eos
  {
    if tokens == [] then []
    else if tokens[0] in eos then [tokens[0]]
    else
      var rest := UntilEnd(tokens[1..], eos);
      assert tokens == [tokens[0]] + tokens[1..];
      assert rest != [] ==> ([tokens[0]] + rest)[..|rest|] == [tokens[0]] + rest[..|rest| - 1];
      [tokens[0]] + rest
  }

  // What a round leaves behind: a longer greedy chain, complete exactly when the loop stops, and
  // otherwise equal to the agreed drafts and one token of the target's own.
  ghost predicate RoundOk(m: Model, prompt: seq<Token>, emitted: seq<Token>, max: nat, eos: set<Token>,
                          draft: seq<Token>, round: seq<Token>, taken: seq<Token>)
  {
    && Chain(m, prompt, emitted + taken) && taken != [] && |emitted + taken| <= max && round != []
    && if round[|round| - 1] in eos || |emitted + taken| >= max then Complete(emitted + taken, eos, max)
       else && Open(emitted + taken, eos) && taken == round
            && 0 < |round| <= |draft| + 1 && round[..|round| - 1] == draft[..|round| - 1]
  }

  // Cutting at the first ending token and at the limit stops where greedy decoding stops.
  lemma CutStopsRight(emitted: seq<Token>, whole: seq<Token>, max: nat, eos: set<Token>, taken: seq<Token>)
    requires Open(emitted, eos) && |emitted| < max && whole != []
    requires var round := UntilEnd(whole, eos);
             taken == round[..if |round| < max - |emitted| then |round| else max - |emitted|]
    ensures var round := UntilEnd(whole, eos); var longer := emitted + taken;
            && taken <= round <= whole && taken != [] && |longer| <= max
            && (if round[|round| - 1] in eos || |longer| >= max then Complete(longer, eos, max)
                else Open(longer, eos) && taken == round == whole)
  {
    hide Open, UntilEnd;
    var round, longer := UntilEnd(whole, eos), emitted + taken;
    var body, last := taken[..|taken| - 1], taken[|taken| - 1];
    assert longer[..|longer| - 1] == emitted + body && taken == body + [last];
    if taken != round {
      assert round[..|round| - 1] == taken + round[|taken|..|round| - 1];
      OpenJoins(taken, round[|taken|..|round| - 1], eos);
    }
    OpenJoins(body, [last], eos);
    OpenJoins(emitted, body, eos);
    OpenJoins(emitted, taken, eos);
    assert taken == round && last !in eos ==> Open([last], eos) by { OpenOne(last, eos); }
  }

  lemma OpenOne(t: Token, eos: set<Token>)
    ensures Open([t], eos) <==> t !in eos
  {
    if Open([t], eos) { assert [t][0] !in eos; }
  }

  // What the round shows of the two models: how many proposals it keeps, and where the output of
  // the request stands after it.
  ghost predicate RoundShows(m: Model, prompt: seq<Token>, emitted: seq<Token>, max: nat, eos: set<Token>, k: nat,
                             retained: nat, longer: seq<Token>)
  {
    && retained == Min(k, |GreedyRun(m, prompt + emitted, eos, k + 1)|)
    && longer == GreedyRun(m, prompt, eos, Min(|emitted| + k + 1, max))
    && (Open(longer, eos) ==> |longer| == Min(|emitted| + k + 1, max))
  }

  lemma RoundIsGreedy(m: Model, prompt: seq<Token>, emitted: seq<Token>, max: nat, eos: set<Token>, whole: seq<Token>,
                      taken: seq<Token>)
    requires Chain(m, prompt, emitted) && Open(emitted, eos) && |emitted| < max && whole != []
    requires Chain(m, prompt + emitted, whole)
    requires var round := UntilEnd(whole, eos);
             taken == round[..if |round| < max - |emitted| then |round| else max - |emitted|]
    ensures RoundShows(m, prompt, emitted, max, eos, |whole| - 1, Min(|whole| - 1, |UntilEnd(whole, eos)|),
                       emitted + taken)
    ensures Chain(m, prompt, emitted + taken)
  {
    hide Chain, Open, GreedyRun, UntilEnd;
    var round, longer, later := UntilEnd(whole, eos), emitted + taken, Min(|emitted| + |whole|, max);
    assert round == whole[..|round|];
    ChainPrefix(m, prompt + emitted, whole, |round|);
    CompleteChainIsGreedyRun(m, prompt + emitted, round, eos, |whole|);
    CutStopsRight(emitted, whole, max, eos, taken);
    ChainPrefix(m, prompt + emitted, whole, |taken|);
    assert taken == whole[..|taken|];
    ChainAppends(m, prompt, emitted, taken);
    assert longer[..|longer| - 1] == emitted + taken[..|taken| - 1];
    LastIsEnd(longer, eos);
    CompleteChainIsGreedyRun(m, prompt, longer, eos, later);
  }

  lemma LastIsEnd(tokens: seq<Token>, eos: set<Token>)
    requires tokens != []
    ensures Open(tokens, eos) <==> Open(tokens[..|tokens| - 1], eos) && tokens[|tokens| - 1] !in eos
  {
    OpenJoins(tokens[..|tokens| - 1], [tokens[|tokens| - 1]], eos);
    OpenOne(tokens[|tokens| - 1], eos);
    assert tokens == tokens[..|tokens| - 1] + [tokens[|tokens| - 1]];
  }

  // Decides what a verified round emits.
  method DecideRound(emitted: seq<Token>, max: nat, eos: set<Token>, draft: seq<Token>, want: seq<Token>, bonus: Token,
                     ghost m: Model, ghost d: Model, ghost prompt: seq<Token>)
    returns (round: seq<Token>, retained: nat, taken: seq<Token>)
    requires Chain(m, prompt, emitted) && Open(emitted, eos) && |emitted| < max
    requires |want| == |draft| && Verified(m, prompt + emitted, draft, want, bonus)
    requires Chain(d, prompt + emitted, draft)
    ensures RoundOk(m, prompt, emitted, max, eos, draft, round, taken) && retained <= |draft|
    ensures round[|round| - 1] !in eos && |emitted + taken| < max ==> retained == |round| - 1
    ensures RoundShows(m, prompt, emitted, max, eos, Agreement(m, d, prompt + emitted, |draft|), retained,
                       emitted + taken)
  {
    hide Chain, Open, Complete, UntilEnd, Agreeing, Agreement, GreedyRun, Verified, RoundShows;
    var agreed := CountAgreeing(draft, want);
    assert draft[..|draft|] == draft;
    var whole := if agreed == |draft| then draft + [bonus] else draft[..agreed] + [want[agreed]];
    round := UntilEnd(whole, eos);
    retained := if agreed < |round| then agreed else |round|;
    taken := round[..if |round| < max - |emitted| then |round| else max - |emitted|];
    CutStopsRight(emitted, whole, max, eos, taken);
    CandidatesChain(m, prompt + emitted, draft, want, bonus);
    CountedAgreement(m, d, prompt + emitted, draft, want, bonus);
    RoundIsGreedy(m, prompt, emitted, max, eos, whole, taken);
  }

  // Of the whole tally, what is counted so far and what is still to come.
  ghost predicate TalliedSoFar(m: Model, d: Model, prompt: seq<Token>, emitted: seq<Token>, max: nat, eos: set<Token>,
                               depth: nat, accepted: nat, proposed: nat, rounds: nat)
  {
    var whole := ScreenTally(m, d, prompt, eos, max, depth, 0);
    var rest := if Open(emitted, eos) then ScreenTally(m, d, prompt, eos, max, depth, |emitted|) else NOTHING;
    && whole.accepted == accepted + rest.accepted && whole.proposed == proposed + rest.proposed
    && whole.rounds == rounds + rest.rounds
  }

  lemma TalliedOn(m: Model, d: Model, prompt: seq<Token>, emitted: seq<Token>, max: nat, eos: set<Token>, depth: nat,
                  accepted: nat, proposed: nat, rounds: nat, retained: nat, longer: seq<Token>)
    requires Chain(m, prompt, emitted) && Open(emitted, eos) && |emitted| < max
    requires RoundShows(m, prompt, emitted, max, eos, Agreement(m, d, prompt + emitted, Min(depth, max - |emitted|)),
                        retained, longer)
    requires TalliedSoFar(m, d, prompt, emitted, max, eos, depth, accepted, proposed, rounds)
    ensures TalliedSoFar(m, d, prompt, longer, max, eos, depth, accepted + retained,
                         proposed + Min(depth, max - |emitted|), rounds + 1)
  {
    hide Chain, Open, GreedyRun, Agreement;
    ChainSoFar(m, prompt, emitted, eos, |emitted|);
    var k := Agreement(m, d, prompt + emitted, Min(depth, max - |emitted|));
    if !Open(longer, eos) { EndedTally(m, d, prompt, eos, max, depth, Min(|emitted| + k + 1, max)); }
  }

  // Nothing is left to count when the output is complete.
  lemma TalliedUp(m: Model, d: Model, prompt: seq<Token>, emitted: seq<Token>, max: nat, eos: set<Token>, depth: nat,
                  accepted: nat, proposed: nat, rounds: nat)
    requires TalliedSoFar(m, d, prompt, emitted, max, eos, depth, accepted, proposed, rounds)
    requires Complete(emitted, eos, max)
    ensures var whole := ScreenTally(m, d, prompt, eos, max, depth, 0);
            whole.accepted == accepted && whole.proposed == proposed && whole.rounds == rounds
    ensures m == d ==> rounds <= BlocksFor(max, depth + 1)
    ensures m == d && eos == {} ==> rounds == BlocksFor(max, depth + 1) && accepted == proposed
  {
    OwnScreen(m, prompt, eos, max, depth, 0);
  }

  lemma EndedTally(m: Model, d: Model, prompt: seq<Token>, eos: set<Token>, max: nat, depth: nat, n: nat)
    requires !Unfinished(m, prompt, eos, n)
    ensures ScreenTally(m, d, prompt, eos, max, depth, n) == NOTHING
  {
  }

  // Lossless for every target, draft and depth: the tokens are the target's own greedy run.
  method Generate(target: Head, draft: Head, prompt: seq<Token>, max: nat, depth: nat, eos: set<Token>)
    returns (r: ScreenResult)
    requires prompt != [] && depth >= 1
    ensures r.tokens == GreedyRun(Alone(target), prompt, eos, max)
    ensures r.accepted <= r.proposed && r.rounds <= max
    ensures var tally := ScreenTally(Alone(target), Alone(draft), prompt, eos, max, depth, 0);
            r.accepted == tally.accepted && r.proposed == tally.proposed && r.rounds == tally.rounds
    ensures draft == target ==> r.rounds <= BlocksFor(max, depth + 1)
    ensures draft == target && eos == {} ==> r.rounds == BlocksFor(max, depth + 1) && r.accepted == r.proposed
  {
    hide Clean, GreedyRun, Chain, Verified, Agreeing, Alone, UntilEnd, RoundShows, ScreenTally, BlocksFor, Agreement;
    hide TalliedSoFar;
    var targetState := new DecodeState.Prefill(target, prompt);
    var draftState := new DecodeState.Prefill(draft, prompt);
    ghost var m := Alone(target);
    var emitted: seq<Token> := [];
    var accepted: nat, proposed: nat, rounds: nat := 0, 0, 0;
    var ended := false;
    assert prompt + [] == prompt;
    EmptyChain(m, prompt);
    ghost var d := Alone(draft);
    NothingTallied(m, d, prompt, max, eos, depth);
    while |emitted| < max && !ended
      invariant fresh(targetState) && fresh(draftState) && targetState != draftState
      invariant Chain(m, prompt, emitted) && |emitted| <= max && rounds <= |emitted| && accepted <= proposed
      invariant if ended || |emitted| >= max then Complete(emitted, eos, max)
                else && Open(emitted, eos) && targetState.Behind(target, prompt + emitted)
                     && draftState.Behind(draft, prompt + emitted)
      invariant TalliedSoFar(m, d, prompt, emitted, max, eos, depth, accepted, proposed, rounds)
      decreases max - |emitted|
    {
      ghost var context := prompt + emitted;
      var width := Min(depth, max - |emitted|);
      var contextLength := |targetState.mask|;
      var proposals := Propose(draft, draftState, width, context);
      var want, bonus := VerifyProposals(target, targetState, proposals, context);
      var round, retained, taken := DecideRound(emitted, max, eos, proposals, want, bonus, m, d, prompt);
      TalliedOn(m, d, prompt, emitted, max, eos, depth, accepted, proposed, rounds, retained, emitted + taken);
      accepted, proposed, rounds := accepted + retained, proposed + width, rounds + 1;
      emitted := emitted + taken;
      assert TalliedSoFar(m, d, prompt, emitted, max, eos, depth, accepted, proposed, rounds);
      if round[|round| - 1] in eos || |emitted| >= max {
        ended := true;
        break;
      }
      assert prompt + emitted == context + round;
      StepBack(target, targetState, contextLength + retained, context, proposals, round);
      StepBack(draft, draftState, contextLength + retained, context, proposals, round);
    }
    CompleteChainIsGreedyRun(m, prompt, emitted, eos, max);
    TalliedUp(m, d, prompt, emitted, max, eos, depth, accepted, proposed, rounds);
    return ScreenResult(emitted, accepted, proposed, rounds);
  }

  // Crops to the agreed proposals and decodes the round's last token.
  method StepBack(head: Head, state: DecodeState, length: nat, ghost context: seq<Token>, ghost proposals: seq<Token>,
                  round: seq<Token>)
    requires state.Holds(context + proposals) && 0 < |round| <= |proposals| + 1
    requires length == |context| + |round| - 1 && round[..|round| - 1] == proposals[..|round| - 1]
    modifies state
    ensures state.Behind(head, context + round)
  {
    hide Clean, Alone;
    var ok := state.Crop(length, context + proposals);
    assert (context + proposals)[..length] == context + proposals[..|round| - 1];
    state.Decode(head, round[|round| - 1], context + proposals[..|round| - 1]);
    assert context + proposals[..|round| - 1] + [round[|round| - 1]] == context + round;
  }

  lemma NothingTallied(m: Model, d: Model, prompt: seq<Token>, max: nat, eos: set<Token>, depth: nat)
    ensures TalliedSoFar(m, d, prompt, [], max, eos, depth, 0, 0, 0)
  {
  }

  lemma EmptyChain(m: Model, prompt: seq<Token>)
    ensures Chain(m, prompt, [])
  {
  }

  // The draft's own choices, one decode at a time.
  method Propose(draft: Head, state: DecodeState, width: nat, ghost context: seq<Token>) returns (proposals: seq<Token>)
    requires state.Behind(draft, context)
    modifies state
    ensures |proposals| == width && state.Behind(draft, context + proposals) && Chain(Alone(draft), context, proposals)
  {
    hide Clean, Chain;
    proposals := [];
    assert context + [] == context;
    EmptyChain(Alone(draft), context);
    for k := 0 to width
      invariant |proposals| == k && state.Behind(draft, context + proposals)
      invariant Chain(Alone(draft), context, proposals)
    {
      var token := state.next;
      ChainGrows(Alone(draft), context, proposals, token);
      assert context + (proposals + [token]) == context + proposals + [token];
      state.Decode(draft, token, context + proposals);
      proposals := proposals + [token];
    }
  }

  // The target checks all proposals in one forward pass.
  method VerifyProposals(target: Head, state: DecodeState, proposals: seq<Token>, ghost context: seq<Token>)
    returns (want: seq<Token>, bonus: Token)
    requires state.Behind(target, context) && proposals != []
    modifies state`row, state`mask
    ensures |want| == |proposals| && state.Holds(context + proposals)
    ensures Verified(Alone(target), context, proposals, want, bonus)
  {
    hide Clean;
    var first := state.next;
    var tail := state.Run(target, proposals, context);
    want, bonus := [first] + tail[..|tail| - 1], tail[|tail| - 1];
    assert context + proposals[..0] == context && proposals[..|proposals|] == proposals;
  }
}
