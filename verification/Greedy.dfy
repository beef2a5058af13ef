// Plain greedy decoding: the reference that every faster or interleaved way of generating
// tokens is compared with (engine/model/runner.py).
module GreedyDecoding {
  import opened Common

  // Next token after a context, the argmax of the model's logits.
  type Model = seq<Token> -> Token

  // The greedy continuation, cut after the first ending token or at `max` tokens.
  function GreedyRun(m: Model, context: seq<Token>, ends: set<Token>, max: nat): (r: seq<Token>)
    ensures |r| <= max
    decreases max
  {
    if max == 0 then []
    else
      var t := m(context);
      [t] + if t in ends then [] else GreedyRun(m, context + [t], ends, max - 1)
  }

  lemma GreedyStep(m: Model, context: seq<Token>, ends: set<Token>, max: nat)
    ensures GreedyRun(m, context, ends, max)
         == if max == 0 then []
            else [m(context)] + if m(context) in ends then [] else GreedyRun(m, context + [m(context)], ends, max - 1)
  {
  }

  // Every token is the model's choice after what precedes it.
  ghost predicate Chain(m: Model, context: seq<Token>, tokens: seq<Token>) {
    forall k | 0 <= k < |tokens| :: tokens[k] == m(context + tokens[..k])
  }

  // No ending token so far.
  predicate Open(tokens: seq<Token>, ends: set<Token>) {
    forall k | 0 <= k < |tokens| :: tokens[k] !in ends
  }

  lemma OpenJoins(a: seq<Token>, b: seq<Token>, ends: set<Token>)
    ensures Open(a + b, ends) <==> Open(a, ends) && Open(b, ends)
  {
    if Open(a + b, ends) {
      forall k | 0 <= k < |a| ensures a[k] !in ends { assert (a + b)[k] == a[k]; }
      forall k | 0 <= k < |b| ensures b[k] !in ends { assert (a + b)[|a| + k] == b[k]; }
    }
  }

  // Stopped exactly where greedy decoding stops.
  predicate Complete(tokens: seq<Token>, ends: set<Token>, max: nat) {
    && |tokens| <= max
    && (tokens != [] ==> Open(tokens[..|tokens| - 1], ends))
    && (|tokens| == max || (tokens != [] && tokens[|tokens| - 1] in ends))
  }

  // A complete chain is the greedy run, and the greedy run is a complete chain.
  lemma {:induction false} CompleteChainIsGreedyRun(m: Model, context: seq<Token>, tokens: seq<Token>, ends: set<Token>,
                                                    max: nat)
    ensures Chain(m, context, tokens) && Complete(tokens, ends, max) <==> tokens == GreedyRun(m, context, ends, max)
    decreases max
  {
    GreedyStep(m, context, ends, max);
    if max > 0 {
      hide GreedyRun;
      var t := m(context);
      if tokens != [] && tokens[0] == t {
        hide Chain, Complete, Open;
        CompleteChainIsGreedyRun(m, context + [t], tokens[1..], ends, max - 1);
        ChainTail(m, context, tokens);
        CompleteTail(tokens, ends, max);
        assert tokens == [t] + tokens[1..];
      } else {
        OtherHead(m, context, tokens, ends, max);
      }
    }
  }

  // A context whose greedy continuation has not ended within `n` tokens.
  ghost predicate Unfinished(m: Model, context: seq<Token>, ends: set<Token>, n: nat) {
    Open(GreedyRun(m, context, ends, n), ends)
  }

  // A chain is the greedy run as far as it goes, finished exactly if its last token is an ending one.
  lemma ChainSoFar(m: Model, context: seq<Token>, tokens: seq<Token>, ends: set<Token>, n: nat)
    requires Chain(m, context, tokens) && |tokens| <= n
    requires if Open(tokens, ends) then |tokens| == n
             else Open(tokens[..|tokens| - 1], ends) && tokens[|tokens| - 1] in ends
    ensures tokens == GreedyRun(m, context, ends, n) && (Unfinished(m, context, ends, n) <==> Open(tokens, ends))
  {
    hide Chain, GreedyRun;
    CompleteChainIsGreedyRun(m, context, tokens, ends, n);
  }

  lemma OtherHead(m: Model, context: seq<Token>, tokens: seq<Token>, ends: set<Token>, max: nat)
    requires max > 0 && (tokens == [] || tokens[0] != m(context))
    ensures !(Chain(m, context, tokens) && Complete(tokens, ends, max)) && tokens != GreedyRun(m, context, ends, max)
  {
    GreedyStep(m, context, ends, max);
    hide GreedyRun;
    if tokens != [] { assert context + tokens[..0] == context; }
  }

  lemma ChainTail(m: Model, context: seq<Token>, tokens: seq<Token>)
    requires tokens != [] && tokens[0] == m(context)
    ensures Chain(m, context, tokens) <==> Chain(m, context + [tokens[0]], tokens[1..])
    ensures |tokens| == 1 ==> Chain(m, context, tokens)
  {
    var rest := tokens[1..];
    forall k | 0 <= k < |rest|
      ensures context + tokens[..k + 1] == context + [tokens[0]] + rest[..k] && rest[k] == tokens[k + 1]
    { }
    if Chain(m, context + [tokens[0]], rest) {
      forall k | 0 <= k < |tokens| ensures tokens[k] == m(context + tokens[..k]) {
        if k == 0 { assert context + tokens[..0] == context; } else { assert rest[k - 1] == tokens[k]; }
      }
    }
  }

  lemma CompleteTail(tokens: seq<Token>, ends: set<Token>, max: nat)
    requires tokens != [] && max > 0
    ensures Complete(tokens, ends, max) <==>
            if tokens[0] in ends then |tokens| == 1 else Complete(tokens[1..], ends, max - 1)
  {
    var rest := tokens[1..];
    if |tokens| > 1 {
      assert tokens[..|tokens| - 1] == [tokens[0]] + rest[..|rest| - 1];
      assert forall k {:trigger rest[k]} | 0 <= k < |rest| - 1 :: rest[k] == tokens[..|tokens| - 1][k + 1];
      assert tokens[..|tokens| - 1][0] == tokens[0];
    }
  }

  // One more chosen token extends a chain.
  lemma ChainGrows(m: Model, context: seq<Token>, tokens: seq<Token>, t: Token)
    requires Chain(m, context, tokens)
    ensures Chain(m, context, tokens + [t]) <==> t == m(context + tokens)
  {
    assert (tokens + [t])[..|tokens|] == tokens;
    forall k | 0 <= k < |tokens| ensures (tokens + [t])[..k] == tokens[..k] { }
  }

  lemma ChainAppends(m: Model, context: seq<Token>, tokens: seq<Token>, more: seq<Token>)
    requires Chain(m, context, tokens) && Chain(m, context + tokens, more)
    ensures Chain(m, context, tokens + more)
  {
    var all := tokens + more;
    forall k | 0 <= k < |all| ensures all[k] == m(context + all[..k]) {
      if k < |tokens| {
        assert all[..k] == tokens[..k];
      } else {
        assert context + all[..k] == context + tokens + more[..k - |tokens|];
      }
    }
  }

  lemma ChainPrefix(m: Model, context: seq<Token>, tokens: seq<Token>, k: nat)
    requires Chain(m, context, tokens) && k <= |tokens|
    ensures Chain(m, context, tokens[..k])
  {
    forall i | 0 <= i < k ensures tokens[..k][..i] == tokens[..i] { }
  }

  // Two chains on one context agree as far as they both go.
  lemma {:induction false} ChainsAgree(m: Model, context: seq<Token>, a: seq<Token>, b: seq<Token>)
    requires Chain(m, context, a) && Chain(m, context, b) && |a| <= |b|
    ensures a == b[..|a|]
    decreases |a|
  {
    if a != [] {
      var k := |a| - 1;
      ChainPrefix(m, context, a, k);
      ChainsAgree(m, context, a[..k], b);
      assert a == a[..k] + [a[k]];
      assert b[..k + 1] == b[..k] + [b[k]];
    }
  }

  // The step-by-step single-request loop of the reference runner.
  method Generate(m: Model, prompt: seq<Token>, ends: set<Token>, max: nat) returns (generated: seq<Token>)
    requires max >= 1
    ensures generated == GreedyRun(m, prompt, ends, max)
  {
    hide GreedyRun;
    generated := [];
    var context, next := prompt, m(prompt);
    ghost var whole := GreedyRun(m, prompt, ends, max);
    for step := 0 to max
      invariant context == prompt + generated && next == m(context)
      invariant |generated| == step && whole == generated + GreedyRun(m, context, ends, max - step)
    {
      var token := next;
      ghost var rest := GreedyRun(m, context, ends, max - step);
      ghost var tail := if token in ends then [] else GreedyRun(m, context + [token], ends, max - step - 1);
      GreedyStep(m, context, ends, max - step);
      assert rest == [token] + tail;
      assert whole == (generated + [token]) + tail;
      generated := generated + [token];
      if token in ends || step == max - 1 {
        assert tail == [];
        return;
      }
      assert context + [token] == prompt + generated;
      context := context + [token];
      next := m(context);
    }
  }
}
