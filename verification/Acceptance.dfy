// Greedy acceptance of draft tokens (engine/speculative/acceptance.py).
module DraftAcceptance {
  import opened Common
  import opened GreedyDecoding

  datatype Terminal = StopToken | EndOfSequence | LengthReached

  // What one verification round commits.
  datatype GreedyCommit = GreedyCommit(
    emitted: seq<Token>, acceptedDrafts: nat, cachedInputs: nat, fullyAccepted: bool, terminal: Option<Terminal>)

  // Length of the longest draft prefix that the target agrees with.
  function Agreeing(draft: seq<Token>, target: seq<Token>): (k: nat)
    ensures k <= |draft| && k <= |target|
    ensures draft[..k] == target[..k]
    ensures k < |draft| && k < |target| ==> draft[k] != target[k]
  {
    if draft == [] || target == [] || draft[0] != target[0] then 0
    else
      var k := Agreeing(draft[1..], target[1..]);
      assert draft[..k + 1] == [draft[0]] + draft[1..][..k] && target[..k + 1] == [target[0]] + target[1..][..k];
      1 + k
  }

  // Why a commit that ends with `token` is final, with `room` tokens left before it started.
  function TerminalOf(token: Token, emitted: nat, room: nat, eos: set<Token>, stops: set<Token>,
                      ignoreEos: bool): Option<Terminal>
  {
    if token in stops then Some(StopToken)
    else if !ignoreEos && token in eos then Some(EndOfSequence)
    else if emitted == room then Some(LengthReached)
    else None
  }

  // Why the commit is final: a stop token goes before an end of sequence, and both go before the
  // limit; otherwise it is not.
  ghost predicate TerminalOk(terminal: Option<Terminal>, last: Token, emitted: nat, room: nat, eos: set<Token>,
                             stops: set<Token>, ignoreEos: bool)
  {
    && (terminal == Some(StopToken) <==> last in stops)
    && (terminal == Some(EndOfSequence) <==> last !in stops && !ignoreEos && last in eos)
    && (terminal == Some(LengthReached) <==> last !in stops && (ignoreEos || last !in eos) && emitted == room)
  }

  lemma TerminalIsOk(last: Token, emitted: nat, room: nat, eos: set<Token>, stops: set<Token>, ignoreEos: bool)
    ensures TerminalOk(TerminalOf(last, emitted, room, eos, stops, ignoreEos), last, emitted, room, eos, stops,
                       ignoreEos)
  {
  }

  // Each target prediction is the model's choice after the proposals before it.
  ghost predicate Verified(m: Model, context: seq<Token>, draft: seq<Token>, target: seq<Token>, bonus: Token) {
    && |target| == |draft|
    && (forall k | 0 <= k < |draft| :: target[k] == m(context + draft[..k]))
    && bonus == m(context + draft)
  }

  // How much of a draft the model would have generated itself.
  ghost function Agreed(m: Model, context: seq<Token>, draft: seq<Token>): nat {
    Agreeing(draft, GreedyRun(m, context, {}, |draft|))
  }

  // It is the longest prefix in which each token is the model's choice.
  lemma AgreedIsLongestChain(m: Model, context: seq<Token>, draft: seq<Token>, k: nat)
    requires k <= |draft|
    ensures Agreed(m, context, draft) <= |draft|
    ensures Chain(m, context, draft[..k]) <==> k <= Agreed(m, context, draft)
  {
    hide Chain;
    var run, a := GreedyRun(m, context, {}, |draft|), Agreed(m, context, draft);
    UncutRun(m, context, |draft|);
    if k <= a {
      ChainPrefix(m, context, run, k);
      assert draft[..k] == draft[..a][..k] == run[..a][..k] == run[..k];
    } else {
      LongerIsNoChain(m, context, draft, run, k);
    }
  }

  // Without ending tokens the greedy run goes to its limit.
  lemma UncutRun(m: Model, context: seq<Token>, max: nat)
    ensures |GreedyRun(m, context, {}, max)| == max && Chain(m, context, GreedyRun(m, context, {}, max))
  {
    hide GreedyRun, Chain;
    CompleteChainIsGreedyRun(m, context, GreedyRun(m, context, {}, max), {}, max);
  }

  lemma LongerIsNoChain(m: Model, context: seq<Token>, draft: seq<Token>, run: seq<Token>, k: nat)
    requires |run| == |draft| && Chain(m, context, run) && Agreeing(draft, run) < k <= |draft|
    ensures !Chain(m, context, draft[..k])
  {
    hide Chain;
    if Chain(m, context, draft[..k]) {
      ChainsAgree(m, context, draft[..k], run);
      CommonPrefix(draft, run, k);
      assert false;
    }
  }

  lemma {:induction false} CommonPrefix(draft: seq<Token>, target: seq<Token>, k: nat)
    requires k <= |draft| && k <= |target| && draft[..k] == target[..k]
    ensures k <= Agreeing(draft, target)
    decreases k
  {
    if k > 0 {
      assert draft[0] == draft[..k][0] == target[..k][0] == target[0];
      assert draft[1..][..k - 1] == draft[..k][1..] == target[..k][1..] == target[1..][..k - 1];
      CommonPrefix(draft[1..], target[1..], k - 1);
    }
  }

  // What verification finds is exactly that.
  lemma VerifiedIsAgreed(m: Model, context: seq<Token>, draft: seq<Token>, target: seq<Token>, bonus: Token)
    requires Verified(m, context, draft, target, bonus)
    ensures Agreeing(draft, target) == Agreed(m, context, draft)
  {
    var a := Agreeing(draft, target);
    AgreedIsLongestChain(m, context, draft, a);
    assert Chain(m, context, draft[..a]) by {
      forall j | 0 <= j < a ensures draft[..a][j] == m(context + draft[..a][..j]) {
        assert draft[..a][..j] == draft[..j] && draft[..a][j] == target[..a][j];
      }
    }
    if a < |draft| {
      AgreedIsLongestChain(m, context, draft, a + 1);
      assert draft[..a + 1][a] == draft[a] && draft[..a + 1][..a] == draft[..a];
    }
  }

  // How many of its next `depth` proposals a draft gets right.
  ghost function Agreement(m: Model, draft: Model, context: seq<Token>, depth: nat): (a: nat)
    ensures a <= depth
  {
    UncutRun(draft, context, depth);
    Agreed(m, context, GreedyRun(draft, context, {}, depth))
  }

  // Verification counts the agreement of a draft that proposed its own greedy run.
  lemma CountedAgreement(m: Model, draft: Model, context: seq<Token>, proposals: seq<Token>, target: seq<Token>,
                         bonus: Token)
    requires Verified(m, context, proposals, target, bonus) && Chain(draft, context, proposals)
    ensures Agreeing(proposals, target) == Agreement(m, draft, context, |proposals|)
  {
    hide Chain, Verified, GreedyRun, Agreeing;
    VerifiedIsAgreed(m, context, proposals, target, bonus);
    CompleteChainIsGreedyRun(draft, context, proposals, {}, |proposals|);
  }

  // A model that drafts for itself is never wrong.
  lemma OwnAgreement(m: Model, context: seq<Token>, depth: nat)
    ensures Agreement(m, m, context, depth) == depth
  {
    hide Chain, GreedyRun, Agreeing;
    var run := GreedyRun(m, context, {}, depth);
    UncutRun(m, context, depth);
    AgreedIsLongestChain(m, context, run, depth);
    assert run[..depth] == run;
  }

  // The agreed drafts and the target's own next token form a greedy chain.
  lemma CandidatesChain(m: Model, context: seq<Token>, draft: seq<Token>, target: seq<Token>, bonus: Token)
    requires Verified(m, context, draft, target, bonus)
    ensures var k := Agreeing(draft, target);
            Chain(m, context, draft[..k] + [if k == |draft| then bonus else target[k]])
  {
    var k := Agreeing(draft, target);
    var tokens := draft[..k] + [if k == |draft| then bonus else target[k]];
    forall j | 0 <= j < |tokens| ensures tokens[j] == m(context + tokens[..j]) {
      assert tokens[..j] == draft[..j];
      if j < k {
        assert draft[..k][j] == target[..k][j];
      } else if k == |draft| {
        assert draft[..k] == draft;
      }
    }
  }

  method CountAgreeing(draft: seq<Token>, target: seq<Token>) returns (accepted: nat)
    requires |draft| == |target|
    ensures accepted == Agreeing(draft, target)
  {
    accepted := 0;
    while accepted < |draft| && draft[accepted] == target[accepted]
      invariant 0 <= accepted <= Agreeing(draft, target)
    {
      AgreesFurther(draft, target, accepted);
      accepted := accepted + 1;
    }
    AgreesFurther(draft, target, accepted);
  }

  // The candidates up to the first one that ends the request, at most `limit` of them.
  method CutAtEnd(candidates: seq<Token>, limit: nat, eos: set<Token>, stops: set<Token>, ignoreEos: bool)
    returns (emitted: seq<Token>, terminal: Option<Terminal>)
    requires 0 < limit <= |candidates|
    ensures emitted != [] && emitted <= candidates
    ensures Complete(emitted, if ignoreEos then stops else stops + eos, limit)
    ensures terminal == TerminalOf(emitted[|emitted| - 1], 0, 1, eos, stops, ignoreEos)
  {
    ghost var ends := if ignoreEos then stops else stops + eos;
    emitted, terminal := [], None;
    while |emitted| < limit && terminal.None?
      invariant |emitted| <= limit && emitted == candidates[..|emitted|]
      invariant emitted == [] ==> terminal.None?
      invariant emitted != [] ==> terminal == TerminalOf(emitted[|emitted| - 1], 0, 1, eos, stops, ignoreEos)
      invariant emitted != [] ==> Open(emitted[..|emitted| - 1], ends)
      decreases limit - |emitted|
    {
      var token := candidates[|emitted|];
      ghost var before := emitted;
      assert before != [] ==> before == before[..|before| - 1] + [before[|before| - 1]];
      emitted := emitted + [token];
      assert emitted[..|emitted| - 1] == before;
      if token in stops {
        terminal := Some(StopToken);
      } else if !ignoreEos && token in eos {
        terminal := Some(EndOfSequence);
      }
    }
  }

  // Accepts a draft prefix and plans the exact commit. Under every model, what is emitted is
  // the model's own greedy continuation: nothing a plain decode would not have produced.
  method PlanGreedyCommit(draft: seq<Token>, target: seq<Token>, bonus: Token, room: int, eos: set<Token>,
                          stops: set<Token>, ignoreEos: bool) returns (r: Reply<GreedyCommit>)
    ensures !r.Exhausted? && (r.Raised? <==> draft == [] || |draft| != |target| || room <= 0)
    ensures r.Ok? ==>
      var plan, k := r.value, Agreeing(draft, target);
      && plan.emitted != [] && |plan.emitted| <= room && |plan.emitted| <= k + 1
      && plan.emitted[..|plan.emitted| - 1] == draft[..|plan.emitted| - 1]
      && plan.cachedInputs == |plan.emitted|
      && plan.acceptedDrafts == (if k < |plan.emitted| then k else |plan.emitted|)
      && plan.fullyAccepted == (k == |draft|)
      && Open(plan.emitted[..|plan.emitted| - 1], if ignoreEos then stops else stops + eos)
      && plan.terminal == TerminalOf(plan.emitted[|plan.emitted| - 1], |plan.emitted|, room, eos, stops, ignoreEos)
      && TerminalOk(plan.terminal, plan.emitted[|plan.emitted| - 1], |plan.emitted|, room, eos, stops, ignoreEos)
    ensures r.Ok? ==> forall m: Model, context | Verified(m, context, draft, target, bonus) ::
      r.value.emitted == GreedyRun(m, context, if ignoreEos then stops else stops + eos,
                                   if Agreeing(draft, target) + 1 < room then Agreeing(draft, target) + 1 else room)
  {
    if draft == [] || |draft| != |target| || room <= 0 {
      return Raised;
    }
    hide Agreeing, Chain, Verified, GreedyRun, Complete, Open, TerminalOf, TerminalOk;
    var accepted := CountAgreeing(draft, target);
    var fully := accepted == |draft|;
    var candidates := if fully then draft + [bonus] else draft[..accepted] + [target[accepted]];
    ghost var ends := if ignoreEos then stops else stops + eos;
    var limit := if room < |candidates| then room else |candidates|;
    var emitted, terminal := CutAtEnd(candidates, limit, eos, stops, ignoreEos);
    CompleteFacts(emitted, ends, limit);
    CutDrafts(draft, accepted, if fully then bonus else target[accepted], candidates, emitted);
    LengthTerminal(emitted[|emitted| - 1], |emitted|, room, eos, stops, ignoreEos);
    if terminal.None? && |emitted| == room {
      terminal := Some(LengthReached);
    }
    TerminalIsOk(emitted[|emitted| - 1], |emitted|, room, eos, stops, ignoreEos);
    UnderEveryModel(draft, target, bonus, emitted, ends, limit);
    return Ok(GreedyCommit(emitted, if accepted < |emitted| then accepted else |emitted|, |emitted|, fully, terminal));
  }

  // Any way of cutting the candidates short where greedy decoding would stop is greedy decoding.
  lemma EmittedIsGreedy(m: Model, context: seq<Token>, draft: seq<Token>, target: seq<Token>, bonus: Token,
                        emitted: seq<Token>, ends: set<Token>, limit: nat)
    requires Verified(m, context, draft, target, bonus)
    requires var k := Agreeing(draft, target);
             emitted <= draft[..k] + [if k == |draft| then bonus else target[k]]
    requires Complete(emitted, ends, limit)
    ensures emitted == GreedyRun(m, context, ends, limit)
  {
    var k := Agreeing(draft, target);
    var candidates := draft[..k] + [if k == |draft| then bonus else target[k]];
    CandidatesChain(m, context, draft, target, bonus);
    assert emitted == candidates[..|emitted|];
    ChainPrefix(m, context, candidates, |emitted|);
    CompleteChainIsGreedyRun(m, context, emitted, ends, limit);
  }

  lemma UnderEveryModel(draft: seq<Token>, target: seq<Token>, bonus: Token, emitted: seq<Token>, ends: set<Token>,
                        limit: nat)
    requires |draft| == |target| && Complete(emitted, ends, limit)
    requires var k := Agreeing(draft, target);
             emitted <= draft[..k] + [if k == |draft| then bonus else target[k]]
    ensures forall m: Model, context | Verified(m, context, draft, target, bonus) ::
              emitted == GreedyRun(m, context, ends, limit)
  {
    hide Agreeing, Verified, GreedyRun, Complete;
    forall m: Model, context | Verified(m, context, draft, target, bonus)
      ensures emitted == GreedyRun(m, context, ends, limit)
    {
      EmittedIsGreedy(m, context, draft, target, bonus, emitted, ends, limit);
    }
  }

  lemma LengthTerminal(token: Token, emitted: nat, room: nat, eos: set<Token>, stops: set<Token>, ignoreEos: bool)
    ensures var early := TerminalOf(token, 0, 1, eos, stops, ignoreEos);
            TerminalOf(token, emitted, room, eos, stops, ignoreEos) ==
              if early.None? && emitted == room then Some(LengthReached) else early
  {
  }

  lemma CompleteFacts(tokens: seq<Token>, ends: set<Token>, limit: nat)
    requires tokens != [] && Complete(tokens, ends, limit)
    ensures |tokens| <= limit && Open(tokens[..|tokens| - 1], ends)
  {
  }

  // All but the last emitted token are drafts.
  lemma CutDrafts(draft: seq<Token>, accepted: nat, last: Token, candidates: seq<Token>, emitted: seq<Token>)
    requires accepted <= |draft| && emitted != [] && emitted <= candidates
    requires candidates == if accepted == |draft| then draft + [last] else draft[..accepted] + [last]
    ensures candidates == draft[..accepted] + [last]
    ensures |emitted| <= accepted + 1 && emitted[..|emitted| - 1] == draft[..|emitted| - 1]
  {
    assert draft[..|draft|] == draft;
  }

  lemma AgreesFurther(draft: seq<Token>, target: seq<Token>, i: nat)
    requires i <= Agreeing(draft, target) && |draft| == |target|
    ensures i < |draft| && draft[i] == target[i] ==> i < Agreeing(draft, target)
    ensures i < |draft| && draft[i] != target[i] ==> i == Agreeing(draft, target)
    ensures i == |draft| ==> i == Agreeing(draft, target)
  {
    var k := Agreeing(draft, target);
    if i < k { assert draft[..k][i] == target[..k][i]; }
  }
}
