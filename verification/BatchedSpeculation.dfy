// Batched greedy speculation over a left-padded batch
// (engine/batching/batched_speculative.py, `BatchedSpeculativeEngine.generate`).
module BatchedSpeculation {
  import opened Common
  import opened GreedyDecoding
  import opened DraftAcceptance
  import opened PaddedBatches
  import opened SpeculationTallies

  datatype SpecResult = SpecResult(
    outputs: seq<seq<Token>>, totalAccepted: nat, totalProposed: nat, totalRounds: nat, trueAccepted: nat)

  // Every row is `width` columns wide, and live rows are clean for their contexts.
  ghost predicate CleanRows(rows: seq<seq<Vector>>, mask: seq<seq<bool>>, contexts: seq<seq<Token>>, live: seq<bool>,
                            width: nat)
  {
    && |rows| == |mask| == |contexts| == |live|
    && forall i | 0 <= i < |rows| ::
         |rows[i]| == |mask[i]| == width && (live[i] ==> Clean(rows[i], mask[i], contexts[i]))
  }

  // A model's side of the batch: clean rows, and the model's choice after each of them.
  ghost predicate SideOk(head: Head, rows: seq<seq<Vector>>, mask: seq<seq<bool>>, next: seq<Token>,
                         contexts: seq<seq<Token>>, live: seq<bool>, width: nat)
  {
    && CleanRows(rows, mask, contexts, live, width) && |next| == |rows|
    && forall i | 0 <= i < |rows| && live[i] :: next[i] == Alone(head)(contexts[i])
  }

  ghost function Joined(contexts: seq<seq<Token>>, more: seq<seq<Token>>): (r: seq<seq<Token>>)
    requires |contexts| == |more|
    ensures |r| == |contexts| && forall i | 0 <= i < |r| :: r[i] == contexts[i] + more[i]
  {
    seq(|contexts|, i requires 0 <= i < |contexts| => contexts[i] + more[i])
  }

  function Columns(tokens: seq<Token>): (r: seq<seq<Token>>)
    ensures |r| == |tokens| && forall i | 0 <= i < |r| :: r[i] == [tokens[i]]
  {
    seq(|tokens|, i requires 0 <= i < |tokens| => [tokens[i]])
  }

  function Widened(mask: seq<seq<bool>>, n: nat): (r: seq<seq<bool>>)
    ensures |r| == |mask| && forall i | 0 <= i < |r| :: r[i] == mask[i] + Ones(n)
  {
    seq(|mask|, i requires 0 <= i < |mask| => mask[i] + Ones(n))
  }

  function Narrowed(mask: seq<seq<bool>>, width: nat): (r: seq<seq<bool>>)
    requires forall i | 0 <= i < |mask| :: width <= |mask[i]|
    ensures |r| == |mask| && forall i | 0 <= i < |r| :: r[i] == mask[i][..width]
  {
    seq(|mask|, i requires 0 <= i < |mask| => mask[i][..width])
  }

  // ---- padding and prefill ----------------------------------------------------------------

  // Pads every prompt on the left to the longest one, with a mask of what is real.
  method PadLeft(prompts: seq<seq<Token>>, pad: Token) returns (ids: seq<seq<Token>>, mask: seq<seq<bool>>, width: nat)
    ensures |ids| == |mask| == |prompts|
    ensures forall i | 0 <= i < |prompts| ::
              && |ids[i]| == |mask[i]| == width && Kept(ids[i], mask[i]) == prompts[i]
              && (prompts[i] != [] ==> mask[i] != [] && mask[i][width - 1])
  {
    width := 0;
    for i := 0 to |prompts|
      invariant forall k | 0 <= k < i :: |prompts[k]| <= width
    {
      if |prompts[i]| > width { width := |prompts[i]|; }
    }
    ids, mask := [], [];
    for i := 0 to |prompts|
      invariant |ids| == |mask| == i
      invariant forall k | 0 <= k < i ::
                  && |ids[k]| == |mask[k]| == width && Kept(ids[k], mask[k]) == prompts[k]
                  && (prompts[k] != [] ==> mask[k] != [] && mask[k][width - 1])
    {
      var missing := width - |prompts[i]|;
      var row := seq<Token>(missing, _ => pad) + prompts[i];
      var shown := seq(missing, _ => false) + Ones(|prompts[i]|);
      KeptPadded(seq<Token>(missing, _ => pad), prompts[i]);
      ids, mask := ids + [row], mask + [shown];
    }
  }

  lemma {:induction false} KeptPadded(pads: seq<Token>, tokens: seq<Token>)
    ensures Kept(pads + tokens, seq(|pads|, _ => false) + Ones(|tokens|)) == tokens
    decreases |tokens|
  {
    var mask := seq(|pads|, _ => false) + Ones(|tokens|);
    var all := pads + tokens;
    if tokens == [] {
      assert all == pads && mask == seq(|pads|, _ => false);
      PadsAreHidden(pads, mask);
    } else {
      KeptPadded(pads, tokens[..|tokens| - 1]);
      assert all[..|all| - 1] == pads + tokens[..|tokens| - 1];
      assert mask[..|all| - 1] == seq(|pads|, _ => false) + Ones(|tokens| - 1);
    }
  }

  lemma {:induction false} PadsAreHidden(pads: seq<Token>, mask: seq<bool>)
    requires |mask| == |pads| && forall i | 0 <= i < |mask| :: !mask[i]
    ensures Kept(pads, mask) == []
  {
    if pads != [] { PadsAreHidden(pads[..|pads| - 1], mask[..|mask| - 1]); }
  }

  // Runs the padded prompts; a row's first prediction comes from its last column.
  method Prefill(head: Head, ids: seq<seq<Token>>, mask: seq<seq<bool>>, width: nat, ghost prompts: seq<seq<Token>>,
                 ghost live: seq<bool>)
    returns (cache: BatchCache, next: seq<Token>)
    requires width > 0 && |ids| == |mask| == |prompts| == |live| && forall i | 0 <= i < |ids| ::
               |ids[i]| == |mask[i]| == width && Kept(ids[i], mask[i]) == prompts[i] && mask[i][width - 1]
    ensures fresh(cache) && SideOk(head, cache.rows, mask, next, prompts, live, width)
  {
    cache := new BatchCache(|ids|);
    var predictions := cache.Forward(head, ids, mask);
    next := seq<Token>(|predictions|, i requires 0 <= i < |predictions| => predictions[i][width - 1]);
    forall i | 0 <= i < |ids|
      ensures Clean(cache.rows[i], mask[i], prompts[i]) && next[i] == Alone(head)(prompts[i])
    {
      PrefilledRow(head, ids[i], mask[i], prompts[i]);
    }
  }

  lemma PrefilledRow(head: Head, ids: seq<Token>, mask: seq<bool>, prompt: seq<Token>)
    requires |ids| == |mask| > 0 && Kept(ids, mask) == prompt && mask[|mask| - 1]
    ensures Clean(Extended([], mask, ids), mask, prompt)
    ensures Predictions(head, Extended([], mask, ids), mask, |ids|)[|ids| - 1] == Alone(head)(prompt)
  {
    assert Clean([], mask[..0], []);
    ExtendedIsClean([], mask, ids, []);
    assert mask[0..] == mask && [] + prompt == prompt;
    var row := Extended([], mask, ids);
    PredictionAt(head, row, mask, |ids|, |ids| - 1, |ids|);
    assert row[..|ids|] == row && mask[..|ids|] == mask;
  }

  // ---- one model's steps ------------------------------------------------------------------

  // One batched decode step behind clean rows.
  method Decode(head: Head, cache: BatchCache, mask: seq<seq<bool>>, tokens: seq<Token>,
                ghost contexts: seq<seq<Token>>, ghost live: seq<bool>, ghost width: nat)
    returns (next: seq<Token>, wide: seq<seq<bool>>)
    requires CleanRows(cache.rows, mask, contexts, live, width) && |tokens| == |mask|
    modifies cache
    ensures |wide| == |mask| && wide == Widened(mask, 1)
    ensures SideOk(head, cache.rows, wide, next, Joined(contexts, Columns(tokens)), live, width + 1)
  {
    hide Clean;
    ghost var before := cache.rows;
    wide := Widened(mask, 1);
    var predictions := cache.Forward(head, Columns(tokens), wide);
    next := seq<Token>(|predictions|, i requires 0 <= i < |predictions| => predictions[i][0]);
    ExtendedRows(head, before, cache.rows, mask, Columns(tokens), predictions, contexts, live, width, 1);
    forall i | 0 <= i < |next| && live[i] ensures next[i] == Alone(head)(contexts[i] + [tokens[i]]) {
      assert Columns(tokens)[i][..1] == [tokens[i]];
    }
  }

  // Rows extended by real tokens stay clean, and predictions behind them are the model's own.
  lemma ExtendedRows(head: Head, before: seq<seq<Vector>>, after: seq<seq<Vector>>, mask: seq<seq<bool>>,
                     tokens: seq<seq<Token>>, predictions: seq<seq<Token>>, contexts: seq<seq<Token>>, live: seq<bool>,
                     width: nat, n: nat)
    requires CleanRows(before, mask, contexts, live, width) && |tokens| == |after| == |predictions| == |before|
    requires forall i | 0 <= i < |tokens| :: |tokens[i]| == n
    requires forall i | 0 <= i < |after| ::
               && after[i] == Extended(before[i], Widened(mask, n)[i], tokens[i])
               && predictions[i] == Predictions(head, after[i], Widened(mask, n)[i], n)
    ensures CleanRows(after, Widened(mask, n), Joined(contexts, tokens), live, width + n)
    ensures forall i | 0 <= i < |after| :: |predictions[i]| == n
    ensures forall i, j | 0 <= i < |after| && live[i] && 0 <= j < n ::
              predictions[i][j] == Alone(head)(contexts[i] + tokens[i][..j + 1])
  {
    hide Clean, Extended, Predictions;
    forall i | 0 <= i < |after|
      ensures |after[i]| == width + n
      ensures live[i] ==> Clean(after[i], Widened(mask, n)[i], contexts[i] + tokens[i])
      ensures live[i] ==> forall j | 0 <= j < n :: predictions[i][j] == Alone(head)(contexts[i] + tokens[i][..j + 1])
    {
      if live[i] {
        RunsOn(before[i], mask[i], tokens[i], contexts[i]);
        PredictsAlone(head, before[i], mask[i], tokens[i], contexts[i]);
      }
    }
  }

  lemma WidenedTwice(mask: seq<seq<bool>>, k: nat)
    ensures Widened(mask, 0) == mask
    ensures Widened(Widened(mask, k), 1) == Widened(mask, k + 1)
  {
    assert Ones(k) + Ones(1) == Ones(k + 1);
    forall i | 0 <= i < |mask|
      ensures Widened(mask, 0)[i] == mask[i] && mask[i] + Ones(k) + Ones(1) == mask[i] + Ones(k + 1)
    {
    }
  }

  // One more proposed column.
  function Appended(rows: seq<seq<Token>>, column: seq<Token>): (r: seq<seq<Token>>)
    requires |column| == |rows|
    ensures |r| == |rows| && forall i | 0 <= i < |r| :: r[i] == rows[i] + [column[i]]
  {
    seq(|rows|, i requires 0 <= i < |rows| => rows[i] + [column[i]])
  }

  lemma JoinedAppended(contexts: seq<seq<Token>>, rows: seq<seq<Token>>, column: seq<Token>)
    requires |contexts| == |rows| == |column|
    ensures Joined(contexts, Appended(rows, column)) == Joined(Joined(contexts, rows), Columns(column))
  {
    forall i | 0 <= i < |rows|
      ensures contexts[i] + (rows[i] + [column[i]]) == contexts[i] + rows[i] + [column[i]]
    { }
  }

  // Live rows propose what the model itself would go on with.
  ghost predicate Drafted(m: Model, contexts: seq<seq<Token>>, proposals: seq<seq<Token>>, live: seq<bool>) {
    && |contexts| == |proposals| == |live|
    && forall i | 0 <= i < |proposals| && live[i] :: Chain(m, contexts[i], proposals[i])
  }

  lemma DraftsOn(m: Model, contexts: seq<seq<Token>>, proposals: seq<seq<Token>>, live: seq<bool>, column: seq<Token>)
    requires Drafted(m, contexts, proposals, live) && |column| == |proposals|
    requires forall i | 0 <= i < |proposals| && live[i] :: column[i] == m(contexts[i] + proposals[i])
    ensures Drafted(m, contexts, Appended(proposals, column), live)
  {
    hide Chain;
    forall i | 0 <= i < |proposals| && live[i]
      ensures Chain(m, contexts[i], Appended(proposals, column)[i])
    {
      ChainGrows(m, contexts[i], proposals[i], column[i]);
    }
  }

  // The draft model proposes `depth` tokens per row, one batched step at a time.
  method DraftProposals(head: Head, cache: BatchCache, mask: seq<seq<bool>>, next: seq<Token>, depth: nat,
                        ghost contexts: seq<seq<Token>>, ghost live: seq<bool>, ghost width: nat)
    returns (proposals: seq<seq<Token>>, wide: seq<seq<bool>>)
    requires SideOk(head, cache.rows, mask, next, contexts, live, width)
    modifies cache
    ensures |proposals| == |mask| && forall i | 0 <= i < |proposals| :: |proposals[i]| == depth
    ensures wide == Widened(mask, depth)
    ensures CleanRows(cache.rows, wide, Joined(contexts, proposals), live, width + depth)
    ensures Drafted(Alone(head), contexts, proposals, live)
  {
    hide Clean, Drafted;
    proposals := seq(|mask|, _ => []);
    var cur := next;
    wide := mask;
    WidenedTwice(mask, 0);
    assert forall i | 0 <= i < |contexts| :: contexts[i] + [] == contexts[i];
    assert Joined(contexts, proposals) == contexts;
    NothingDrafted(Alone(head), contexts, proposals, live);
    for k := 0 to depth
      invariant |proposals| == |mask| && forall i | 0 <= i < |proposals| :: |proposals[i]| == k
      invariant |wide| == |mask| && wide == Widened(mask, k)
      invariant SideOk(head, cache.rows, wide, cur, Joined(contexts, proposals), live, width + k)
      invariant Drafted(Alone(head), contexts, proposals, live)
    {
      ghost var extended := Joined(contexts, proposals);
      JoinedAppended(contexts, proposals, cur);
      WidenedTwice(mask, k);
      DraftsOn(Alone(head), contexts, proposals, live, cur);
      proposals := Appended(proposals, cur);
      cur, wide := Decode(head, cache, wide, cur, extended, live, width + k);
    }
  }

  lemma NothingDrafted(m: Model, contexts: seq<seq<Token>>, proposals: seq<seq<Token>>, live: seq<bool>)
    requires |contexts| == |proposals| == |live| && forall i | 0 <= i < |proposals| :: proposals[i] == []
    ensures Drafted(m, contexts, proposals, live)
  {
  }

  // ---- verification and acceptance --------------------------------------------------------

  // The target checks all proposals of all rows in one forward pass.
  method Verify(head: Head, cache: BatchCache, mask: seq<seq<bool>>, next: seq<Token>, proposals: seq<seq<Token>>,
                depth: nat, ghost contexts: seq<seq<Token>>, ghost live: seq<bool>, ghost width: nat)
    returns (want: seq<seq<Token>>, bonus: seq<Token>, wide: seq<seq<bool>>)
    requires SideOk(head, cache.rows, mask, next, contexts, live, width) && depth > 0
    requires |proposals| == |mask| && forall i | 0 <= i < |proposals| :: |proposals[i]| == depth
    modifies cache
    ensures wide == Widened(mask, depth)
    ensures CleanRows(cache.rows, wide, Joined(contexts, proposals), live, width + depth)
    ensures |want| == |bonus| == |mask| && forall i | 0 <= i < |want| :: |want[i]| == depth
    ensures forall i | 0 <= i < |want| && live[i] ::
              Verified(Alone(head), contexts[i], proposals[i], want[i], bonus[i])
  {
    hide Clean;
    ghost var before := cache.rows;
    wide := Widened(mask, depth);
    var predictions := cache.Forward(head, proposals, wide);
    ExtendedRows(head, before, cache.rows, mask, proposals, predictions, contexts, live, width, depth);
    want := seq(|predictions|, i requires 0 <= i < |predictions| => [next[i]] + predictions[i][..depth - 1]);
    bonus := seq<Token>(|predictions|, i requires 0 <= i < |predictions| => predictions[i][depth - 1]);
    forall i | 0 <= i < |want| && live[i] ensures Verified(Alone(head), contexts[i], proposals[i], want[i], bonus[i]) {
      WantIsVerified(Alone(head), contexts[i], proposals[i], next[i], predictions[i]);
    }
  }

  lemma WantIsVerified(m: Model, context: seq<Token>, draft: seq<Token>, next: Token, predictions: seq<Token>)
    requires draft != [] && |predictions| == |draft| && next == m(context)
    requires forall j | 0 <= j < |draft| :: predictions[j] == m(context + draft[..j + 1])
    ensures Verified(m, context, draft, [next] + predictions[..|draft| - 1], predictions[|draft| - 1])
  {
    assert context + draft[..0] == context;
    assert draft[..|draft|] == draft;
  }

  // What a verified row may emit: the agreed drafts and then the target's own token.
  function Emission(draft: seq<Token>, want: seq<Token>, bonus: Token): (r: seq<Token>)
    requires |want| == |draft|
    ensures |r| == Agreeing(draft, want) + 1
    ensures r[..|r| - 1] == draft[..|r| - 1]
  {
    var k := Agreeing(draft, want);
    draft[..k] + [if k == |draft| then bonus else want[k]]
  }

  // Ragged acceptance: every unfinished row emits as far as draft and target agree.
  method Accept(proposals: seq<seq<Token>>, want: seq<seq<Token>>, bonus: seq<Token>, done: seq<bool>)
    returns (accepted: seq<nat>, emits: seq<seq<Token>>)
    requires |want| == |bonus| == |done| == |proposals|
    requires forall i | 0 <= i < |proposals| :: |want[i]| == |proposals[i]|
    ensures |accepted| == |emits| == |proposals|
    ensures forall i | 0 <= i < |emits| ::
              if done[i] then accepted[i] == 0 && emits[i] == []
              else && accepted[i] == Agreeing(proposals[i], want[i])
                   && emits[i] == Emission(proposals[i], want[i], bonus[i])
  {
    accepted, emits := [], [];
    for i := 0 to |proposals|
      invariant |accepted| == |emits| == i
      invariant forall k | 0 <= k < i ::
                  if done[k] then accepted[k] == 0 && emits[k] == []
                  else && accepted[k] == Agreeing(proposals[k], want[k])
                       && emits[k] == Emission(proposals[k], want[k], bonus[k])
    {
      if done[i] {
        accepted, emits := accepted + [0], emits + [[]];
      } else {
        var acc := CountAgreeing(proposals[i], want[i]);
        assert proposals[i][..|proposals[i]|] == proposals[i];
        var emit := if acc == |proposals[i]| then proposals[i] + [bonus[i]] else proposals[i][..acc] + [want[i][acc]];
        accepted, emits := accepted + [acc], emits + [emit];
      }
    }
  }

  // The batch stays rectangular by committing the shortest emission of its unfinished rows.
  method ShortestEmission(emits: seq<seq<Token>>, done: seq<bool>) returns (commit: nat)
    requires |emits| == |done| && exists i | 0 <= i < |done| :: !done[i]
    ensures exists i | 0 <= i < |done| :: !done[i] && |emits[i]| == commit
    ensures forall i | 0 <= i < |done| && !done[i] :: commit <= |emits[i]|
  {
    ghost var some :| 0 <= some < |done| && !done[some];
    var found := false;
    commit := 0;
    for i := 0 to |emits|
      invariant found <==> exists k | 0 <= k < i :: !done[k]
      invariant found ==> exists k | 0 <= k < i :: !done[k] && |emits[k]| == commit
      invariant found ==> forall k | 0 <= k < i && !done[k] :: commit <= |emits[k]|
    {
      if !done[i] && (!found || |emits[i]| < commit) {
        found, commit := true, |emits[i]|;
      }
    }
  }

  // Appends committed tokens to one output, up to its limit and its first ending token.
  method CommitRow(output: seq<Token>, tokens: seq<Token>, max: nat, eos: set<Token>)
    returns (longer: seq<Token>, done: bool, ghost taken: seq<Token>)
    requires |output| <= max
    ensures longer == output + taken && |longer| <= max && taken <= tokens
    ensures done <==> taken != [] && taken[|taken| - 1] in eos
    ensures taken != [] ==> Open(taken[..|taken| - 1], eos)
    ensures !done ==> taken == tokens || |longer| == max
  {
    longer, done, taken := output, false, [];
    for i := 0 to |tokens|
      invariant longer == output + taken && |longer| <= max && taken <= tokens[..i]
      invariant done <==> taken != [] && taken[|taken| - 1] in eos
      invariant taken != [] ==> Open(taken[..|taken| - 1], eos)
      invariant !done ==> taken == tokens[..i] || |longer| == max
    {
      assert tokens[..i + 1] == tokens[..i] + [tokens[i]];
      if |longer| < max && !done {
        var t := tokens[i];
        ghost var before := taken;
        assert before != [] ==> before == before[..|before| - 1] + [before[|before| - 1]];
        longer, taken := longer + [t], taken + [t];
        assert taken[..|taken| - 1] == before;
        if t in eos {
          done := true;
        }
      }
    }
    assert tokens[..|tokens|] == tokens;
  }

  // ---- rows over the rounds ---------------------------------------------------------------

  // One row between rounds: a greedy chain; unfinished rows are all `n` tokens long.
  ghost predicate RowOk(m: Model, prompt: seq<Token>, output: seq<Token>, done: bool, n: nat, max: nat, eos: set<Token>)
  {
    && Chain(m, prompt, output) && |output| <= n <= max
    && if done then Complete(output, eos, max) && output != [] && output[|output| - 1] in eos
       else |output| == n && Open(output, eos)
  }

  // So it is the greedy run of its first `n` tokens, and finished exactly if that run has ended.
  lemma RowSoFar(m: Model, prompt: seq<Token>, output: seq<Token>, done: bool, n: nat, max: nat, eos: set<Token>)
    requires RowOk(m, prompt, output, done, n, max, eos)
    ensures output == GreedyRun(m, prompt, eos, n) && (done <==> !Unfinished(m, prompt, eos, n))
  {
    hide Chain, GreedyRun, Unfinished;
    if done { assert !Open(output, eos); }
    ChainSoFar(m, prompt, output, eos, n);
  }

  // Committing part of a verified emission keeps a row a greedy chain.
  lemma RowAdvances(m: Model, prompt: seq<Token>, output: seq<Token>, n: nat, max: nat, eos: set<Token>,
                    draft: seq<Token>, want: seq<Token>, bonus: Token, commit: nat, taken: seq<Token>, done: bool)
    requires RowOk(m, prompt, output, false, n, max, eos)
    requires Verified(m, prompt + output, draft, want, bonus) && commit <= |Emission(draft, want, bonus)|
    requires taken <= Emission(draft, want, bonus)[..commit] && n + |taken| <= max
    requires done <==> taken != [] && taken[|taken| - 1] in eos
    requires taken != [] ==> Open(taken[..|taken| - 1], eos)
    requires !done ==> |taken| == commit || n + |taken| == max
    ensures RowOk(m, prompt, output + taken, done, if n + commit < max then n + commit else max, max, eos)
  {
    hide Chain;
    var emit, longer := Emission(draft, want, bonus), output + taken;
    CandidatesChain(m, prompt + output, draft, want, bonus);
    ChainPrefix(m, prompt + output, emit, |taken|);
    assert taken == emit[..|taken|];
    ChainAppends(m, prompt, output, taken);
    if taken != [] { assert longer[..|longer| - 1] == output + taken[..|taken| - 1]; }
  }

  // ---- rollback ---------------------------------------------------------------------------

  function Firsts(rows: seq<seq<Token>>, k: nat): (r: seq<seq<Token>>)
    requires forall i | 0 <= i < |rows| :: k <= |rows[i]|
    ensures |r| == |rows| && forall i | 0 <= i < |r| :: r[i] == rows[i][..k]
  {
    seq(|rows|, i requires 0 <= i < |rows| => rows[i][..k])
  }

  // Crops a cache to `keep` proposals and decodes the last committed token once.
  method Rollback(head: Head, cache: BatchCache, mask: seq<seq<bool>>, depth: nat, keep: nat, last: seq<Token>,
                  ghost proposals: seq<seq<Token>>, ghost contexts: seq<seq<Token>>, ghost live: seq<bool>, width: nat)
    returns (next: seq<Token>, narrow: seq<seq<bool>>)
    requires keep <= depth && |mask| == |proposals| == |contexts| == |last|
    requires forall i | 0 <= i < |mask| :: |mask[i]| == width && |proposals[i]| == depth
    requires CleanRows(cache.rows, Widened(mask, depth), Joined(contexts, proposals), live, width + depth)
    modifies cache
    ensures |narrow| == |mask|
    ensures SideOk(head, cache.rows, narrow, next, Joined(Joined(contexts, Firsts(proposals, keep)), Columns(last)),
                   live, width + keep + 1)
  {
    hide Clean;
    ghost var before := cache.rows;
    var over := depth - keep;
    if over > 0 {
      cache.Crop(over);
    }
    CroppedRows(before, cache.rows, mask, contexts, proposals, live, width, depth, keep);
    var cropped := Narrowed(Widened(mask, depth), width + keep);
    next, narrow := Decode(head, cache, cropped, last, Joined(contexts, Firsts(proposals, keep)), live, width + keep);
  }

  lemma CroppedRows(before: seq<seq<Vector>>, after: seq<seq<Vector>>, mask: seq<seq<bool>>, contexts: seq<seq<Token>>,
                    proposals: seq<seq<Token>>, live: seq<bool>, width: nat, depth: nat, keep: nat)
    requires keep <= depth && |mask| == |proposals| == |contexts| == |after| == |before|
    requires forall i | 0 <= i < |mask| :: |mask[i]| == width && |proposals[i]| == depth
    requires CleanRows(before, Widened(mask, depth), Joined(contexts, proposals), live, width + depth)
    requires forall i | 0 <= i < |after| :: after[i] == before[i][..width + keep]
    ensures CleanRows(after, Narrowed(Widened(mask, depth), width + keep), Joined(contexts, Firsts(proposals, keep)),
                      live, width + keep)
  {
    hide Clean;
    forall i | 0 <= i < |after| && live[i]
      ensures Clean(after[i], Widened(mask, depth)[i][..width + keep], contexts[i] + proposals[i][..keep])
    {
      var whole := contexts[i] + proposals[i];
      CropIsClean(before[i], Widened(mask, depth)[i], whole, width + keep);
      assert whole[..|whole| - (depth - keep)] == contexts[i] + proposals[i][..keep];
    }
  }

  // The same side of the batch, seen as the contexts of the rows that are still live.
  lemma Relabelled(head: Head, rows: seq<seq<Vector>>, mask: seq<seq<bool>>, next: seq<Token>, a: seq<seq<Token>>,
                   live: seq<bool>, b: seq<seq<Token>>, fewer: seq<bool>, width: nat)
    requires SideOk(head, rows, mask, next, a, live, width) && |b| == |fewer| == |a|
    requires forall i | 0 <= i < |a| && fewer[i] :: live[i] && b[i] == a[i]
    ensures SideOk(head, rows, mask, next, b, fewer, width)
  {
  }

  // ---- the commit of a round --------------------------------------------------------------

  // What committing does to one row.
  ghost predicate RowCommitted(output: seq<Token>, done: bool, emit: seq<Token>, commit: nat, max: nat, eos: set<Token>,
                               longer: seq<Token>, finished: bool, taken: seq<Token>)
  {
    if done then longer == output && finished
    else
      && longer == output + taken && |longer| <= max && commit <= |emit| && taken <= emit[..commit]
      && (finished <==> taken != [] && taken[|taken| - 1] in eos)
      && (taken != [] ==> Open(taken[..|taken| - 1], eos))
      && (!finished ==> taken == emit[..commit] || |longer| == max)
  }

  lemma NothingCapped(cap: nat)
    ensures Capped([], cap) == 0
  {
  }

  lemma CappedGrows(shares: seq<nat>, cap: nat, i: nat)
    requires i < |shares|
    ensures Capped(shares[..i + 1], cap) == Capped(shares[..i], cap) + Min(shares[i], cap)
  {
    assert shares[..i + 1][..i] == shares[..i];
  }

  // Appends what every unfinished row commits, and counts how much of it the draft had right.
  method CommitRows(outputs: seq<seq<Token>>, done: seq<bool>, emits: seq<seq<Token>>, accepted: seq<nat>, commit: nat,
                    max: nat, eos: set<Token>, ghost depth: nat)
    returns (longer: seq<seq<Token>>, finished: seq<bool>, kept: nat, agreed: nat, ghost taken: seq<seq<Token>>)
    requires |outputs| == |done| == |emits| == |accepted|
    requires forall i | 0 <= i < |outputs| ::
               && |outputs[i]| <= max && accepted[i] <= depth
               && if done[i] then accepted[i] == 0 else commit <= |emits[i]|
    ensures |longer| == |finished| == |taken| == |outputs|
    ensures forall i | 0 <= i < |outputs| ::
              RowCommitted(outputs[i], done[i], emits[i], commit, max, eos, longer[i], finished[i], taken[i])
    ensures kept == Capped(accepted, commit) && agreed == Capped(accepted, depth)
  {
    hide Capped;
    assert Capped([], commit) == Capped([], depth) == 0 by { NothingCapped(commit); NothingCapped(depth); }
    longer, finished, kept, agreed, taken := [], [], 0, 0, [];
    for i := 0 to |outputs|
      invariant |longer| == |finished| == |taken| == i
      invariant forall k | 0 <= k < i ::
                  RowCommitted(outputs[k], done[k], emits[k], commit, max, eos, longer[k], finished[k], taken[k])
      invariant kept == Capped(accepted[..i], commit) && agreed == Capped(accepted[..i], depth)
    {
      CappedGrows(accepted, commit, i);
      CappedGrows(accepted, depth, i);
      if done[i] {
        longer, finished, taken := longer + [outputs[i]], finished + [true], taken + [[]];
      } else {
        var row, over;
        ghost var part;
        row, over, part := CommitRow(outputs[i], emits[i][..commit], max, eos);
        longer, finished, taken := longer + [row], finished + [over], taken + [part];
        kept, agreed := kept + if accepted[i] < commit then accepted[i] else commit, agreed + accepted[i];
      }
    }
    assert accepted[..|outputs|] == accepted;
  }

  // The last committed token of each row that was unfinished; padding for the others.
  function LastCommitted(emits: seq<seq<Token>>, done: seq<bool>, commit: nat, pad: Token): (r: seq<Token>)
    requires |done| == |emits| && commit > 0 && forall i | 0 <= i < |emits| && !done[i] :: commit <= |emits[i]|
    ensures |r| == |emits| && forall i | 0 <= i < |r| :: r[i] == if done[i] then pad else emits[i][commit - 1]
  {
    seq(|emits|, i requires 0 <= i < |emits| => if done[i] then pad else emits[i][commit - 1])
  }

  ghost function Live(done: seq<bool>): (r: seq<bool>)
    ensures |r| == |done| && forall i | 0 <= i < |r| :: r[i] == !done[i]
  {
    seq(|done|, i requires 0 <= i < |done| => !done[i])
  }

  // The state of the batch between rounds, apart from the two caches.
  ghost predicate Rounds(m: Model, prompts: seq<seq<Token>>, outputs: seq<seq<Token>>, done: seq<bool>, n: nat,
                         max: nat, eos: set<Token>)
  {
    && |outputs| == |done| == |prompts| && n <= max
    && forall i | 0 <= i < |prompts| :: RowOk(m, prompts[i], outputs[i], done[i], n, max, eos)
  }

  // A round of verified emissions advances every unfinished row by the same amount, and the
  // decoded caches then stand exactly behind what the unfinished rows have put out.
  lemma RoundAdvances(m: Model, prompts: seq<seq<Token>>, outputs: seq<seq<Token>>, done: seq<bool>, n: nat, max: nat,
                      eos: set<Token>, proposals: seq<seq<Token>>, want: seq<seq<Token>>, bonus: seq<Token>,
                      emits: seq<seq<Token>>, commit: nat, longer: seq<seq<Token>>, finished: seq<bool>,
                      taken: seq<seq<Token>>, depth: nat, pad: Token)
    requires Rounds(m, prompts, outputs, done, n, max, eos) && 0 < commit <= depth + 1
    requires |proposals| == |want| == |bonus| == |emits| == |longer| == |finished| == |taken| == |prompts|
    requires forall i | 0 <= i < |prompts| :: |proposals[i]| == |want[i]| == depth
    requires forall i | 0 <= i < |prompts| && !done[i] ::
               && Verified(m, prompts[i] + outputs[i], proposals[i], want[i], bonus[i])
               && emits[i] == Emission(proposals[i], want[i], bonus[i]) && commit <= |emits[i]|
    requires forall i | 0 <= i < |prompts| ::
               RowCommitted(outputs[i], done[i], emits[i], commit, max, eos, longer[i], finished[i], taken[i])
    ensures Rounds(m, prompts, longer, finished, if n + commit < max then n + commit else max, max, eos)
    ensures n + commit < max ==> forall i | 0 <= i < |prompts| && !finished[i] ::
              && !done[i]
              && prompts[i] + longer[i]
                 == prompts[i] + outputs[i] + proposals[i][..commit - 1] + [LastCommitted(emits, done, commit, pad)[i]]
  {
    hide Chain, Verified, RowOk, Agreeing;
    forall i | 0 <= i < |prompts|
      ensures RowOk(m, prompts[i], longer[i], finished[i], if n + commit < max then n + commit else max, max, eos)
    {
      if done[i] {
        DoneStays(m, prompts[i], outputs[i], n, if n + commit < max then n + commit else max, max, eos);
      } else {
        OpenLength(m, prompts[i], outputs[i], n, max, eos);
        RowAdvances(m, prompts[i], outputs[i], n, max, eos, proposals[i], want[i], bonus[i], commit, taken[i],
                    finished[i]);
      }
    }
    forall i | 0 <= i < |prompts| && !finished[i] && n + commit < max
      ensures !done[i]
      ensures prompts[i] + longer[i]
              == prompts[i] + outputs[i] + proposals[i][..commit - 1] + [LastCommitted(emits, done, commit, pad)[i]]
    {
      OpenLength(m, prompts[i], outputs[i], n, max, eos);
      CommittedTokens(emits[i], proposals[i], commit);
      assert taken[i] == emits[i][..commit];
    }
  }

  lemma DoneStays(m: Model, prompt: seq<Token>, output: seq<Token>, n: nat, later: nat, max: nat, eos: set<Token>)
    requires RowOk(m, prompt, output, true, n, max, eos) && n <= later <= max
    ensures RowOk(m, prompt, output, true, later, max, eos)
  {
  }

  lemma OpenLength(m: Model, prompt: seq<Token>, output: seq<Token>, n: nat, max: nat, eos: set<Token>)
    requires RowOk(m, prompt, output, false, n, max, eos)
    ensures |output| == n
  {
  }

  lemma CommittedTokens(emit: seq<Token>, draft: seq<Token>, commit: nat)
    requires 0 < commit <= |emit| <= |draft| + 1 && emit[..|emit| - 1] == draft[..|emit| - 1]
    ensures emit[..commit] == draft[..commit - 1] + [emit[commit - 1]]
  {
    assert emit[..commit - 1] == emit[..|emit| - 1][..commit - 1] == draft[..commit - 1];
  }

  // ---- generation -------------------------------------------------------------------------

  function Longest(outputs: seq<seq<Token>>): (n: nat)
    ensures forall i | 0 <= i < |outputs| :: |outputs[i]| <= n
    ensures outputs != [] ==> exists i | 0 <= i < |outputs| :: |outputs[i]| == n
  {
    if outputs == [] then 0
    else
      var rest := Longest(outputs[..|outputs| - 1]);
      var last := |outputs[|outputs| - 1]|;
      assert forall i | 0 <= i < |outputs| - 1 :: outputs[..|outputs| - 1][i] == outputs[i];
      if last > rest || |outputs| == 1 then last else rest
  }

  // What a round carries over besides the two caches.
  datatype Batch = Batch(
    outputs: seq<seq<Token>>, done: seq<bool>, targetMask: seq<seq<bool>>, targetNext: seq<Token>,
    draftMask: seq<seq<bool>>, draftNext: seq<Token>, width: nat)

  // Between rounds both caches stand exactly behind each unfinished row's prompt and output.
  ghost predicate BatchOk(target: Head, draft: Head, prompts: seq<seq<Token>>, b: Batch, targetRows: seq<seq<Vector>>,
                          draftRows: seq<seq<Vector>>, n: nat, max: nat, eos: set<Token>)
  {
    && Rounds(Alone(target), prompts, b.outputs, b.done, n, max, eos)
    && |b.targetMask| == |b.draftMask| == |prompts|
    && (forall i | 0 <= i < |prompts| :: |b.targetMask[i]| == |b.draftMask[i]| == b.width)
    && (n < max ==>
          && SideOk(target, targetRows, b.targetMask, b.targetNext, Joined(prompts, b.outputs), Live(b.done), b.width)
          && SideOk(draft, draftRows, b.draftMask, b.draftNext, Joined(prompts, b.outputs), Live(b.done), b.width))
  }

  // One round: draft, verify, accept, commit the shortest emission, roll back, decode once.
  method Round(target: Head, draft: Head, targetCache: BatchCache, draftCache: BatchCache, b: Batch, max: nat,
               depth: nat, pad: Token, eos: set<Token>, ghost prompts: seq<seq<Token>>, ghost n: nat)
    returns (next: Batch, kept: nat, agreed: nat, ghost later: nat)
    requires depth >= 1 && targetCache != draftCache && n < max && exists i | 0 <= i < |b.done| :: !b.done[i]
    requires BatchOk(target, draft, prompts, b, targetCache.rows, draftCache.rows, n, max, eos)
    modifies targetCache, draftCache
    ensures n < later <= max
    ensures BatchOk(target, draft, prompts, next, targetCache.rows, draftCache.rows, later, max, eos)
    ensures RoundCounted(Alone(target), Alone(draft), prompts, eos, max, depth, n, later, kept, agreed)
  {
    hide Clean, RowOk, SideOk, Rounds, CleanRows, BatchOk, RoundCounted, Joined, Firsts, Columns, Live;
    BatchFacts(target, draft, prompts, b, targetCache.rows, draftCache.rows, n, max, eos);
    ghost var contexts, live := Joined(prompts, b.outputs), Live(b.done);
    var longer, finished, last, commit;
    ghost var proposals;
    proposals, longer, finished, last, commit, kept, agreed, later :=
      Speculate(target, draft, targetCache, draftCache, b, max, depth, pad, eos, prompts, n);
    var targetNext, targetMask :=
      Rollback(target, targetCache, b.targetMask, depth, commit - 1, last, proposals, contexts, live, b.width);
    var draftNext, draftMask :=
      Rollback(draft, draftCache, b.draftMask, depth, commit - 1, last, proposals, contexts, live, b.width);
    assert b.width + (commit - 1) + 1 == b.width + commit;
    next := Batch(longer, finished, targetMask, targetNext, draftMask, draftNext, b.width + commit);
    RoundEnds(target, draft, prompts, b, next, targetCache.rows, draftCache.rows, later, max, eos, proposals, commit,
              last);
  }

  // The first half of a round: propose, verify, and decide what every row commits.
  method Speculate(target: Head, draft: Head, targetCache: BatchCache, draftCache: BatchCache, b: Batch, max: nat,
                   depth: nat, pad: Token, eos: set<Token>, ghost prompts: seq<seq<Token>>, ghost n: nat)
    returns (ghost proposed: seq<seq<Token>>, longer: seq<seq<Token>>, finished: seq<bool>, last: seq<Token>,
             commit: nat, kept: nat, agreed: nat, ghost later: nat)
    requires depth >= 1 && targetCache != draftCache && n < max && exists i | 0 <= i < |b.done| :: !b.done[i]
    requires BatchOk(target, draft, prompts, b, targetCache.rows, draftCache.rows, n, max, eos)
    modifies targetCache, draftCache
    ensures |proposed| == |longer| == |finished| == |last| == |prompts| == |b.outputs|
    ensures forall i | 0 <= i < |prompts| :: |proposed[i]| == depth
    ensures CleanRows(targetCache.rows, Widened(b.targetMask, depth), Joined(Joined(prompts, b.outputs), proposed),
                      Live(b.done), b.width + depth)
    ensures CleanRows(draftCache.rows, Widened(b.draftMask, depth), Joined(Joined(prompts, b.outputs), proposed),
                      Live(b.done), b.width + depth)
    ensures 0 < commit <= depth + 1 && n < later <= max
    ensures Rounds(Alone(target), prompts, longer, finished, later, max, eos) && |b.done| == |prompts|
    ensures later < max ==> forall i | 0 <= i < |prompts| && !finished[i] ::
              !b.done[i] && prompts[i] + longer[i] == prompts[i] + b.outputs[i] + proposed[i][..commit - 1] + [last[i]]
    ensures RoundCounted(Alone(target), Alone(draft), prompts, eos, max, depth, n, later, kept, agreed)
  {
    hide Clean, Verified, SideOk, Rounds, CleanRows, BatchOk, RoundCounted, Chain;
    BatchFacts(target, draft, prompts, b, targetCache.rows, draftCache.rows, n, max, eos);
    ghost var contexts, live := Joined(prompts, b.outputs), Live(b.done);
    var proposals, draftWide := DraftProposals(draft, draftCache, b.draftMask, b.draftNext, depth, contexts, live,
                                                   b.width);
    var want, bonus, targetWide :=
      Verify(target, targetCache, b.targetMask, b.targetNext, proposals, depth, contexts, live, b.width);
    proposed := proposals;
    longer, finished, last, commit, kept, agreed, later :=
      CommitRound(b.outputs, b.done, proposals, want, bonus, max, depth, pad, eos, Alone(target), Alone(draft), prompts,
                  n);
  }

  lemma BatchFacts(target: Head, draft: Head, prompts: seq<seq<Token>>, b: Batch, targetRows: seq<seq<Vector>>,
                   draftRows: seq<seq<Vector>>, n: nat, max: nat, eos: set<Token>)
    requires BatchOk(target, draft, prompts, b, targetRows, draftRows, n, max, eos) && n < max
    ensures |b.outputs| == |b.done| == |prompts| == |b.targetMask| == |b.draftMask|
    ensures Rounds(Alone(target), prompts, b.outputs, b.done, n, max, eos)
    ensures forall i | 0 <= i < |prompts| :: |b.targetMask[i]| == |b.draftMask[i]| == b.width
    ensures SideOk(target, targetRows, b.targetMask, b.targetNext, Joined(prompts, b.outputs), Live(b.done), b.width)
    ensures SideOk(draft, draftRows, b.draftMask, b.draftNext, Joined(prompts, b.outputs), Live(b.done), b.width)
  {
  }

  // What a round counts and how far it brings the batch: as far as all unfinished rows agree, one
  // token further, and no further than the limit.
  ghost predicate RoundCounted(t: Model, d: Model, prompts: seq<seq<Token>>, eos: set<Token>, max: nat, depth: nat,
                               n: nat, later: nat, kept: nat, agreed: nat)
  {
    var shares := Shares(t, d, prompts, eos, depth, n);
    exists least: nat | LeastShare(t, prompts, eos, n, shares, least) ::
      later == Min(n + least + 1, max) && kept == Capped(shares, least + 1) && agreed == Capped(shares, depth)
  }

  // The counted agreements are those of the two models.
  lemma CountsAreShares(m: Model, d: Model, prompts: seq<seq<Token>>, outputs: seq<seq<Token>>, done: seq<bool>, n: nat,
                        max: nat, eos: set<Token>, proposals: seq<seq<Token>>, want: seq<seq<Token>>,
                        bonus: seq<Token>, counts: seq<nat>, depth: nat)
    requires Rounds(m, prompts, outputs, done, n, max, eos)
    requires |proposals| == |want| == |bonus| == |counts| == |prompts|
    requires forall i | 0 <= i < |prompts| :: |proposals[i]| == |want[i]| == depth
    requires forall i | 0 <= i < |prompts| ::
               if done[i] then counts[i] == 0
               else && Verified(m, prompts[i] + outputs[i], proposals[i], want[i], bonus[i])
                    && Chain(d, prompts[i] + outputs[i], proposals[i])
                    && counts[i] == Agreeing(proposals[i], want[i])
    ensures counts == Shares(m, d, prompts, eos, depth, n)
    ensures forall i | 0 <= i < |prompts| :: done[i] <==> !Unfinished(m, prompts[i], eos, n)
  {
    hide Chain, RowOk, Verified, Agreeing, Agreement, GreedyRun, Unfinished;
    var shares := Shares(m, d, prompts, eos, depth, n);
    forall i | 0 <= i < |prompts|
      ensures counts[i] == shares[i] && (done[i] <==> !Unfinished(m, prompts[i], eos, n))
    {
      RowSoFar(m, prompts[i], outputs[i], done[i], n, max, eos);
      if !done[i] { CountedAgreement(m, d, prompts[i] + outputs[i], proposals[i], want[i], bonus[i]); }
    }
  }

  // The shortest emission is one token longer than the least agreement.
  lemma LeastCommits(m: Model, d: Model, prompts: seq<seq<Token>>, outputs: seq<seq<Token>>, done: seq<bool>, n: nat,
                     max: nat, eos: set<Token>, emits: seq<seq<Token>>, counts: seq<nat>, commit: nat, depth: nat)
    requires |emits| == |counts| == |prompts| == |done| && commit > 0
    requires counts == Shares(m, d, prompts, eos, depth, n)
    requires forall i | 0 <= i < |prompts| :: done[i] <==> !Unfinished(m, prompts[i], eos, n)
    requires forall i | 0 <= i < |prompts| && !done[i] :: |emits[i]| == counts[i] + 1
    requires exists i | 0 <= i < |done| :: !done[i] && |emits[i]| == commit
    requires forall i | 0 <= i < |done| && !done[i] :: commit <= |emits[i]|
    ensures RoundCounted(m, d, prompts, eos, max, depth, n, Min(n + commit, max), Capped(counts, commit),
                         Capped(counts, depth))
  {
    hide Unfinished, Capped, Agreement, GreedyRun;
    var i :| 0 <= i < |done| && !done[i] && |emits[i]| == commit;
    assert Unfinished(m, prompts[i], eos, n) && counts[i] == commit - 1;
    assert LeastShare(m, prompts, eos, n, counts, commit - 1);
  }

  // Accepts, decides how much to commit, and commits it.
  method CommitRound(outputs: seq<seq<Token>>, done: seq<bool>, proposals: seq<seq<Token>>, want: seq<seq<Token>>,
                     bonus: seq<Token>, max: nat, depth: nat, pad: Token, eos: set<Token>, ghost m: Model,
                     ghost d: Model, ghost prompts: seq<seq<Token>>, ghost n: nat)
    returns (longer: seq<seq<Token>>, finished: seq<bool>, last: seq<Token>, commit: nat, kept: nat, agreed: nat,
             ghost later: nat)
    requires Rounds(m, prompts, outputs, done, n, max, eos) && n < max && exists i | 0 <= i < |done| :: !done[i]
    requires |proposals| == |want| == |bonus| == |prompts|
    requires forall i | 0 <= i < |prompts| :: |proposals[i]| == |want[i]| == depth
    requires forall i | 0 <= i < |prompts| && !done[i] ::
               && Verified(m, prompts[i] + outputs[i], proposals[i], want[i], bonus[i])
               && Chain(d, prompts[i] + outputs[i], proposals[i])
    ensures |longer| == |finished| == |last| == |prompts|
    ensures 0 < commit <= depth + 1 && n < later <= max
    ensures Rounds(m, prompts, longer, finished, later, max, eos)
    ensures later < max ==> forall i | 0 <= i < |prompts| && !finished[i] ::
              !done[i] && prompts[i] + longer[i] == prompts[i] + outputs[i] + proposals[i][..commit - 1] + [last[i]]
    ensures RoundCounted(m, d, prompts, eos, max, depth, n, later, kept, agreed)
  {
    hide Chain, RowOk, Verified, RowCommitted, Agreeing, Emission, RoundCounted, Capped;
    UnfinishedLength(m, prompts, outputs, done, n, max, eos);
    var counts, emits := Accept(proposals, want, bonus, done);
    EmissionLengths(proposals, want, bonus, done, emits, counts, depth);
    commit := ShortestEmission(emits, done);
    ghost var taken;
    longer, finished, kept, agreed, taken := CommitRows(outputs, done, emits, counts, commit, max, eos, depth);
    last := LastCommitted(emits, done, commit, pad);
    later := if n + commit < max then n + commit else max;
    CountsAreShares(m, d, prompts, outputs, done, n, max, eos, proposals, want, bonus, counts, depth);
    LeastCommits(m, d, prompts, outputs, done, n, max, eos, emits, counts, commit, depth);
    RoundAdvances(m, prompts, outputs, done, n, max, eos, proposals, want, bonus, emits, commit, longer, finished,
                  taken, depth, pad);
  }

  // Both sides, decoded behind the last committed token, stand behind the new outputs.
  lemma RoundEnds(target: Head, draft: Head, prompts: seq<seq<Token>>, b: Batch, next: Batch,
                  targetRows: seq<seq<Vector>>, draftRows: seq<seq<Vector>>, later: nat, max: nat, eos: set<Token>,
                  proposals: seq<seq<Token>>, commit: nat, last: seq<Token>)
    requires Rounds(Alone(target), prompts, next.outputs, next.done, later, max, eos)
    requires |b.outputs| == |b.done| == |prompts| == |proposals| == |last| == |next.outputs| == |next.done|
    requires commit > 0
    requires forall i | 0 <= i < |proposals| :: commit - 1 <= |proposals[i]|
    requires var behind := Joined(Joined(Joined(prompts, b.outputs), Firsts(proposals, commit - 1)), Columns(last));
             && SideOk(target, targetRows, next.targetMask, next.targetNext, behind, Live(b.done), next.width)
             && SideOk(draft, draftRows, next.draftMask, next.draftNext, behind, Live(b.done), next.width)
    requires later < max ==> forall i | 0 <= i < |prompts| && !next.done[i] ::
               && !b.done[i]
               && prompts[i] + next.outputs[i] == prompts[i] + b.outputs[i] + proposals[i][..commit - 1] + [last[i]]
    ensures BatchOk(target, draft, prompts, next, targetRows, draftRows, later, max, eos)
  {
    hide SideOk, RowOk;
    var behind := Joined(Joined(Joined(prompts, b.outputs), Firsts(proposals, commit - 1)), Columns(last));
    var live := Live(b.done);
    SideWidth(target, targetRows, next.targetMask, next.targetNext, behind, live, next.width);
    SideWidth(draft, draftRows, next.draftMask, next.draftNext, behind, live, next.width);
    if later < max {
      var contexts := Joined(prompts, next.outputs);
      Relabelled(target, targetRows, next.targetMask, next.targetNext, behind, live, contexts, Live(next.done),
                 next.width);
      Relabelled(draft, draftRows, next.draftMask, next.draftNext, behind, live, contexts, Live(next.done), next.width);
    }
  }

  // Pads and prefills the batch for both models.
  method Start(target: Head, draft: Head, prompts: seq<seq<Token>>, pad: Token, ghost max: nat, ghost eos: set<Token>)
    returns (b: Batch, targetCache: BatchCache, draftCache: BatchCache)
    requires prompts != [] && forall i | 0 <= i < |prompts| :: prompts[i] != []
    ensures fresh(targetCache) && fresh(draftCache) && targetCache != draftCache
    ensures BatchOk(target, draft, prompts, b, targetCache.rows, draftCache.rows, 0, max, eos)
  {
    hide Clean, Chain, RowOk, SideOk, Rounds, BatchOk, Kept;
    var ids, attention, width := PadLeft(prompts, pad);
    assert prompts[0] != [] && attention[0] != [];
    ghost var live := seq(|prompts|, _ => true);
    var targetNext, draftNext;
    targetCache, targetNext := Prefill(target, ids, attention, width, prompts, live);
    draftCache, draftNext := Prefill(draft, ids, attention, width, prompts, live);
    b := Batch(seq(|prompts|, _ => []), seq(|prompts|, _ => false), attention, targetNext, attention, draftNext, width);
    BatchStarts(target, draft, prompts, b, live, targetCache.rows, draftCache.rows, max, eos);
  }

  // Lossless for every target, draft, depth and batch: each row is the target's own greedy
  // continuation of its prompt, whatever the draft proposed and however ragged acceptance was. The
  // reported totals are those of the two models' agreements, round by round.
  method Generate(target: Head, draft: Head, prompts: seq<seq<Token>>, max: nat, depth: nat, pad: Token,
                  eos: set<Token>)
    returns (r: SpecResult)
    requires depth >= 1 && prompts != [] && forall i | 0 <= i < |prompts| :: prompts[i] != []
    ensures |r.outputs| == |prompts|
    ensures forall i | 0 <= i < |prompts| :: r.outputs[i] == GreedyRun(Alone(target), prompts[i], eos, max)
    ensures r.totalAccepted <= r.trueAccepted <= r.totalProposed && r.totalRounds <= max
    ensures r.totalProposed == depth * |prompts| * r.totalRounds
    ensures Tally(r.totalAccepted, r.totalProposed, r.totalRounds, r.trueAccepted)
         == BatchTally(Alone(target), Alone(draft), prompts, eos, max, depth, 0)
    ensures draft == target ==> r.totalRounds <= BlocksFor(max, depth + 1)
    ensures draft == target && eos == {} ==>
              r.totalRounds == BlocksFor(max, depth + 1) && r.totalAccepted == r.trueAccepted == r.totalProposed
  {
    hide SideOk, GreedyRun, Rounds, BatchOk, RoundCounted, BatchTally, Alone, BlocksFor, AnyUnfinished, PerRound;
    var b, targetCache, draftCache := Start(target, draft, prompts, pad, max, eos);
    var accepted: nat, proposed: nat, rounds: nat, agreed: nat := 0, 0, 0, 0;
    ghost var n: nat := 0;
    ghost var whole := BatchTally(Alone(target), Alone(draft), prompts, eos, max, depth, 0);
    while (exists i | 0 <= i < |b.done| :: !b.done[i]) && Longest(b.outputs) < max
      invariant fresh(targetCache) && fresh(draftCache) && targetCache != draftCache
      invariant BatchOk(target, draft, prompts, b, targetCache.rows, draftCache.rows, n, max, eos)
      invariant n <= max
      invariant whole == Plus(Tally(accepted, proposed, rounds, agreed),
                              BatchTally(Alone(target), Alone(draft), prompts, eos, max, depth, n))
      decreases max - n
    {
      BatchLength(target, draft, prompts, b, targetCache.rows, draftCache.rows, n, max, eos);
      var kept, right;
      ghost var later;
      b, kept, right, later := Round(target, draft, targetCache, draftCache, b, max, depth, pad, eos, prompts, n);
      RoundTallied(Alone(target), Alone(draft), prompts, eos, max, depth, n, later, kept, right);
      n := later;
      accepted, agreed := accepted + kept, agreed + right;
      proposed, rounds := proposed + PerRound(depth, |prompts|), rounds + 1;
    }
    BatchEnds(target, draft, prompts, b, targetCache.rows, draftCache.rows, n, max, eos);
    NothingLeft(target, draft, prompts, b, targetCache.rows, draftCache.rows, n, max, eos, depth);
    assert whole == Tally(accepted, proposed, rounds, agreed);
    Totals(Alone(target), Alone(draft), prompts, eos, max, depth);
    return SpecResult(b.outputs, accepted, proposed, rounds, agreed);
  }

  lemma RoundTallied(t: Model, d: Model, prompts: seq<seq<Token>>, eos: set<Token>, max: nat, depth: nat, n: nat,
                     later: nat, kept: nat, agreed: nat)
    requires n < max && RoundCounted(t, d, prompts, eos, max, depth, n, later, kept, agreed)
    ensures later <= max
    ensures BatchTally(t, d, prompts, eos, max, depth, n)
         == Plus(Tally(kept, PerRound(depth, |prompts|), 1, agreed), BatchTally(t, d, prompts, eos, max, depth, later))
  {
    hide BatchTally, Capped, Shares;
    var shares := Shares(t, d, prompts, eos, depth, n);
    var least: nat :| && LeastShare(t, prompts, eos, n, shares, least) && later == Min(n + least + 1, max)
                      && kept == Capped(shares, least + 1) && agreed == Capped(shares, depth);
    BatchStep(t, d, prompts, eos, max, depth, n, least);
  }

  // The loop ends where the tally does.
  lemma NothingLeft(target: Head, draft: Head, prompts: seq<seq<Token>>, b: Batch, targetRows: seq<seq<Vector>>,
                    draftRows: seq<seq<Vector>>, n: nat, max: nat, eos: set<Token>, depth: nat)
    requires BatchOk(target, draft, prompts, b, targetRows, draftRows, n, max, eos)
    requires (exists i | 0 <= i < |b.done| :: !b.done[i]) ==> Longest(b.outputs) >= max
    ensures BatchTally(Alone(target), Alone(draft), prompts, eos, max, depth, n) == NOTHING
  {
    hide SideOk, RowOk, Unfinished, Alone;
    if n < max && AnyUnfinished(Alone(target), prompts, eos, n) {
      var i :| 0 <= i < |prompts| && Unfinished(Alone(target), prompts[i], eos, n);
      RowSoFar(Alone(target), prompts[i], b.outputs[i], b.done[i], n, max, eos);
      UnfinishedLength(Alone(target), prompts, b.outputs, b.done, n, max, eos);
    }
  }

  lemma Totals(t: Model, d: Model, prompts: seq<seq<Token>>, eos: set<Token>, max: nat, depth: nat)
    requires prompts != []
    ensures var tally := BatchTally(t, d, prompts, eos, max, depth, 0);
            && tally.accepted <= tally.agreed <= tally.proposed == depth * |prompts| * tally.rounds
            && tally.rounds <= max
            && (d == t ==> tally.rounds <= BlocksFor(max, depth + 1))
            && (d == t && eos == {} ==>
                  tally.rounds == BlocksFor(max, depth + 1) && tally.accepted == tally.agreed == tally.proposed)
  {
    hide BatchTally, BlocksFor;
    BatchTotals(t, d, prompts, eos, max, depth, 0);
    OwnBatch(t, prompts, eos, max, depth, 0);
  }

  lemma BatchStarts(target: Head, draft: Head, prompts: seq<seq<Token>>, b: Batch, live: seq<bool>,
                    targetRows: seq<seq<Vector>>, draftRows: seq<seq<Vector>>, max: nat, eos: set<Token>)
    requires |b.outputs| == |b.done| == |live| == |prompts|
    requires forall i | 0 <= i < |prompts| :: b.outputs[i] == [] && !b.done[i] && live[i]
    requires SideOk(target, targetRows, b.targetMask, b.targetNext, prompts, live, b.width)
    requires SideOk(draft, draftRows, b.draftMask, b.draftNext, prompts, live, b.width)
    ensures BatchOk(target, draft, prompts, b, targetRows, draftRows, 0, max, eos)
  {
    hide SideOk, Rounds;
    StartRounds(Alone(target), prompts, b.outputs, b.done, max, eos);
    assert Live(b.done) == live;
    SideWidth(target, targetRows, b.targetMask, b.targetNext, prompts, live, b.width);
    SideWidth(draft, draftRows, b.draftMask, b.draftNext, prompts, live, b.width);
  }

  lemma BatchLength(target: Head, draft: Head, prompts: seq<seq<Token>>, b: Batch, targetRows: seq<seq<Vector>>,
                    draftRows: seq<seq<Vector>>, n: nat, max: nat, eos: set<Token>)
    requires BatchOk(target, draft, prompts, b, targetRows, draftRows, n, max, eos)
    requires exists i | 0 <= i < |b.done| :: !b.done[i]
    ensures Longest(b.outputs) == n
  {
    hide SideOk, Rounds;
    UnfinishedLength(Alone(target), prompts, b.outputs, b.done, n, max, eos);
  }

  lemma BatchEnds(target: Head, draft: Head, prompts: seq<seq<Token>>, b: Batch, targetRows: seq<seq<Vector>>,
                  draftRows: seq<seq<Vector>>, n: nat, max: nat, eos: set<Token>)
    requires BatchOk(target, draft, prompts, b, targetRows, draftRows, n, max, eos)
    requires (exists i | 0 <= i < |b.done| :: !b.done[i]) ==> Longest(b.outputs) >= max
    ensures |b.outputs| == |prompts|
    ensures forall i | 0 <= i < |prompts| :: b.outputs[i] == GreedyRun(Alone(target), prompts[i], eos, max)
  {
    hide SideOk, Rounds;
    EndRounds(Alone(target), prompts, b.outputs, b.done, n, max, eos);
  }

  lemma StartRounds(m: Model, prompts: seq<seq<Token>>, outputs: seq<seq<Token>>, done: seq<bool>, max: nat,
                    eos: set<Token>)
    requires |outputs| == |done| == |prompts| && forall i | 0 <= i < |prompts| :: outputs[i] == [] && !done[i]
    ensures Rounds(m, prompts, outputs, done, 0, max, eos)
    ensures Joined(prompts, outputs) == prompts
  {
    assert forall i | 0 <= i < |prompts| :: prompts[i] + [] == prompts[i];
  }

  lemma UnfinishedLength(m: Model, prompts: seq<seq<Token>>, outputs: seq<seq<Token>>, done: seq<bool>, n: nat,
                         max: nat, eos: set<Token>)
    requires Rounds(m, prompts, outputs, done, n, max, eos) && exists i | 0 <= i < |done| :: !done[i]
    ensures Longest(outputs) == n && |outputs| == |done| == |prompts|
    ensures forall i | 0 <= i < |outputs| :: |outputs[i]| <= max
  {
    hide Chain;
    var i :| 0 <= i < |done| && !done[i];
    assert |outputs[i]| == n;
  }

  lemma EmissionLengths(proposals: seq<seq<Token>>, want: seq<seq<Token>>, bonus: seq<Token>, done: seq<bool>,
                        emits: seq<seq<Token>>, counts: seq<nat>, depth: nat)
    requires |want| == |bonus| == |done| == |emits| == |counts| == |proposals|
    requires forall i | 0 <= i < |proposals| :: |want[i]| == |proposals[i]| == depth
    requires forall i | 0 <= i < |emits| ::
               if done[i] then counts[i] == 0 && emits[i] == []
               else && counts[i] == Agreeing(proposals[i], want[i])
                    && emits[i] == Emission(proposals[i], want[i], bonus[i])
    ensures forall i | 0 <= i < |emits| ::
              && counts[i] <= depth
              && if done[i] then counts[i] == 0 else 0 < |emits[i]| == counts[i] + 1 <= depth + 1
  {
  }

  lemma SideWidth(head: Head, rows: seq<seq<Vector>>, mask: seq<seq<bool>>, next: seq<Token>, contexts: seq<seq<Token>>,
                  live: seq<bool>, width: nat)
    requires SideOk(head, rows, mask, next, contexts, live, width)
    ensures |mask| == |contexts| == |live| && forall i | 0 <= i < |mask| :: |mask[i]| == width
  {
  }

  lemma EndRounds(m: Model, prompts: seq<seq<Token>>, outputs: seq<seq<Token>>, done: seq<bool>, n: nat, max: nat,
                  eos: set<Token>)
    requires Rounds(m, prompts, outputs, done, n, max, eos)
    requires (exists i | 0 <= i < |done| :: !done[i]) ==> Longest(outputs) >= max
    ensures |outputs| == |prompts| && forall i | 0 <= i < |prompts| :: outputs[i] == GreedyRun(m, prompts[i], eos, max)
  {
    forall i | 0 <= i < |prompts| ensures outputs[i] == GreedyRun(m, prompts[i], eos, max) {
      if !done[i] { UnfinishedLength(m, prompts, outputs, done, n, max, eos); }
      assert RowOk(m, prompts[i], outputs[i], done[i], n, max, eos);
      CompleteChainIsGreedyRun(m, prompts[i], outputs[i], eos, max);
    }
  }
}
