// Left-padded batches over a growing key-value cache, as a causal model with an attention mask
// and explicit position ids sees them (engine/batching/batched_speculative.py).
module PaddedBatches {
  import opened Common
  import opened GreedyDecoding

  // A cached vector: what its token attended to, the token, and its position id.
  datatype Vector = Vector(past: seq<Vector>, token: Token, position: int)

  // The next-token choice of a model, given the vectors a query attends to.
  type Head = seq<Vector> -> Token

  // The vectors of a token sequence run alone, without padding.
  function RunOf(tokens: seq<Token>): (r: seq<Vector>)
    ensures |r| == |tokens|
  {
    if tokens == [] then []
    else
      var past := RunOf(tokens[..|tokens| - 1]);
      past + [Vector(past, tokens[|tokens| - 1], |past|)]
  }

  // A model alone, as a function of the context.
  function Alone(head: Head): Model {
    (context: seq<Token>) => head(RunOf(context))
  }

  function Count(mask: seq<bool>): (n: nat)
    ensures n <= |mask|
  {
    if mask == [] then 0 else Count(mask[..|mask| - 1]) + if mask[|mask| - 1] then 1 else 0
  }

  // Position id of the last column: how many real columns there are up to it, less one;
  // padding gets a dummy position.
  function PositionId(mask: seq<bool>): int
    requires mask != []
  {
    if mask[|mask| - 1] then Count(mask) - 1 else 1
  }

  // The cached vectors that the mask lets a query see.
  function Visible(row: seq<Vector>, mask: seq<bool>): (r: seq<Vector>)
    requires |row| == |mask|
    ensures |r| == Count(mask)
  {
    if row == [] then []
    else
      var rest := Visible(row[..|row| - 1], mask[..|mask| - 1]);
      if mask[|mask| - 1] then rest + [row[|row| - 1]] else rest
  }

  // One row of a batch after running `tokens` behind what it holds; `mask` covers both.
  function Extended(row: seq<Vector>, mask: seq<bool>, tokens: seq<Token>): (r: seq<Vector>)
    requires |mask| == |row| + |tokens|
    ensures |r| == |mask|
  {
    if tokens == [] then row
    else
      var k := |mask| - 1;
      var before := Extended(row, mask[..k], tokens[..|tokens| - 1]);
      before + [Vector(Visible(before, mask[..k]), tokens[|tokens| - 1], PositionId(mask))]
  }

  lemma {:induction false} ExtendedPrefix(row: seq<Vector>, mask: seq<bool>, tokens: seq<Token>, k: nat)
    requires |mask| == |row| + |tokens| && k <= |tokens|
    ensures Extended(row, mask, tokens)[..|row| + k] == Extended(row, mask[..|row| + k], tokens[..k])
    decreases |tokens|
  {
    if k == |tokens| {
      assert mask[..|row| + k] == mask && tokens[..k] == tokens;
    } else {
      var shorter := tokens[..|tokens| - 1];
      ExtendedPrefix(row, mask[..|mask| - 1], shorter, k);
      assert shorter[..k] == tokens[..k] && mask[..|mask| - 1][..|row| + k] == mask[..|row| + k];
    }
  }

  // A row whose visible part is exactly the isolated run of a context.
  ghost predicate Clean(row: seq<Vector>, mask: seq<bool>, context: seq<Token>) {
    |row| == |mask| && Visible(row, mask) == RunOf(context)
  }

  // The tokens that the mask keeps.
  function Kept(tokens: seq<Token>, mask: seq<bool>): (r: seq<Token>)
    requires |tokens| == |mask|
  {
    if tokens == [] then []
    else Kept(tokens[..|tokens| - 1], mask[..|mask| - 1]) + if mask[|mask| - 1] then [tokens[|tokens| - 1]] else []
  }

  lemma SeenIsClean(row: seq<Vector>, mask: seq<bool>, context: seq<Token>, token: Token)
    requires Clean(row, mask, context)
    ensures Clean(row + [Vector(Visible(row, mask), token, PositionId(mask + [true]))], mask + [true],
                  context + [token])
  {
    var all := context + [token];
    assert all[..|all| - 1] == context;
    assert (mask + [true])[..|mask|] == mask;
    var longer := row + [Vector(Visible(row, mask), token, PositionId(mask + [true]))];
    assert longer[..|row|] == row;
  }

  lemma HiddenIsClean(row: seq<Vector>, mask: seq<bool>, context: seq<Token>, v: Vector)
    requires Clean(row, mask, context)
    ensures Clean(row + [v], mask + [false], context)
  {
    assert (mask + [false])[..|mask|] == mask && (row + [v])[..|row|] == row;
  }

  // Padding is harmless: whatever a mask hides, the visible part of an extended row is the
  // isolated run of the real tokens, at positions 0, 1, 2 and so on.
  lemma {:induction false} ExtendedIsClean(row: seq<Vector>, mask: seq<bool>, tokens: seq<Token>, context: seq<Token>)
    requires |mask| == |row| + |tokens| && Clean(row, mask[..|row|], context)
    ensures Clean(Extended(row, mask, tokens), mask, context + Kept(tokens, mask[|row|..]))
    decreases |tokens|
  {
    hide Clean, Visible, RunOf;
    if tokens == [] {
      assert mask[..|row|] == mask && context + [] == context;
    } else {
      var k, more := |mask| - 1, mask[|row|..];
      var shorter, token := tokens[..|tokens| - 1], tokens[|tokens| - 1];
      assert mask[..k][..|row|] == mask[..|row|] && mask[..k][|row|..] == more[..|more| - 1];
      ExtendedIsClean(row, mask[..k], shorter, context);
      var before, kept := Extended(row, mask[..k], shorter), context + Kept(shorter, mask[..k][|row|..]);
      assert mask == mask[..k] + [mask[k]] && more[|more| - 1] == mask[k];
      if mask[k] {
        SeenIsClean(before, mask[..k], kept, token);
        assert context + Kept(tokens, more) == kept + [token];
      } else {
        HiddenIsClean(before, mask[..k], kept, Vector(Visible(before, mask[..k]), token, PositionId(mask)));
        assert context + Kept(tokens, more) == kept;
      }
    }
  }

  function Ones(n: nat): (r: seq<bool>)
    ensures |r| == n && forall i | 0 <= i < n :: r[i]
  {
    seq(n, _ => true)
  }

  lemma {:induction false} KeptAll(tokens: seq<Token>, mask: seq<bool>)
    requires |tokens| == |mask| && forall i | 0 <= i < |mask| :: mask[i]
    ensures Kept(tokens, mask) == tokens
  {
    if tokens != [] { KeptAll(tokens[..|tokens| - 1], mask[..|mask| - 1]); }
  }

  // Running real tokens behind a clean row.
  lemma RunsOn(row: seq<Vector>, mask: seq<bool>, tokens: seq<Token>, context: seq<Token>)
    requires Clean(row, mask, context)
    ensures Clean(Extended(row, mask + Ones(|tokens|), tokens), mask + Ones(|tokens|), context + tokens)
  {
    var wide := mask + Ones(|tokens|);
    assert wide[..|row|] == mask && wide[|row|..] == Ones(|tokens|);
    KeptAll(tokens, Ones(|tokens|));
    ExtendedIsClean(row, wide, tokens, context);
  }

  // What the model predicts after the j-th of the last `width` columns.
  function Predictions(head: Head, row: seq<Vector>, mask: seq<bool>, width: nat): (r: seq<Token>)
    requires |row| == |mask| && width <= |row|
    ensures |r| == width
  {
    seq<Token>(width, j requires 0 <= j < width =>
      var upto := |row| - width + j + 1; head(Visible(row[..upto], mask[..upto])))
  }

  // On a clean row they are the isolated model's predictions.
  lemma PredictsAlone(head: Head, row: seq<Vector>, mask: seq<bool>, tokens: seq<Token>, context: seq<Token>)
    requires Clean(row, mask, context)
    ensures var wide := mask + Ones(|tokens|);
            forall j | 0 <= j < |tokens| ::
              Predictions(head, Extended(row, wide, tokens), wide, |tokens|)[j]
              == Alone(head)(context + tokens[..j + 1])
  {
    forall j | 0 <= j < |tokens| { PredictsAt(head, row, mask, tokens, context, j); }
  }

  lemma PredictsAt(head: Head, row: seq<Vector>, mask: seq<bool>, tokens: seq<Token>, context: seq<Token>, j: nat)
    requires Clean(row, mask, context) && j < |tokens|
    ensures var wide := mask + Ones(|tokens|);
            Predictions(head, Extended(row, wide, tokens), wide, |tokens|)[j] == Alone(head)(context + tokens[..j + 1])
  {
    hide *;
    var k, wide, first := j + 1, mask + Ones(|tokens|), tokens[..j + 1];
    CleanLength(row, mask, context);
    var all := Extended(row, wide, tokens);
    PredictionAt(head, all, wide, |tokens|, j, |row| + k);
    ExtendedPrefix(row, wide, tokens, k);
    OnesPrefix(mask, |tokens|, k);
    RunsOn(row, mask, first, context);
    var part := Extended(row, mask + Ones(k), first);
    assert all[..|row| + k] == part;
    CleanRun(part, mask + Ones(k), context + first);
    AloneIs(head, context + first);
  }

  lemma OnesPrefix(mask: seq<bool>, n: nat, k: nat)
    requires k <= n
    ensures (mask + Ones(n))[..|mask| + k] == mask + Ones(k)
  {
  }

  lemma AloneIs(head: Head, context: seq<Token>)
    ensures Alone(head)(context) == head(RunOf(context))
  {
  }

  lemma CleanLength(row: seq<Vector>, mask: seq<bool>, context: seq<Token>)
    requires Clean(row, mask, context)
    ensures |row| == |mask|
  {
  }

  lemma CleanRun(row: seq<Vector>, mask: seq<bool>, context: seq<Token>)
    requires Clean(row, mask, context)
    ensures |row| == |mask| && Visible(row, mask) == RunOf(context)
  {
  }

  lemma PredictionAt(head: Head, row: seq<Vector>, mask: seq<bool>, width: nat, j: nat, upto: nat)
    requires |row| == |mask| && j < width <= |row| && upto == |row| - width + j + 1
    ensures Predictions(head, row, mask, width)[j] == head(Visible(row[..upto], mask[..upto]))
  {
  }

  lemma LastIsClean(row: seq<Vector>, mask: seq<bool>, context: seq<Token>)
    requires Clean(row, mask, context) && row != [] && mask[|mask| - 1]
    ensures context != [] && Clean(row[..|row| - 1], mask[..|mask| - 1], context[..|context| - 1])
  {
    var k := |row| - 1;
    var rest := Visible(row[..k], mask[..k]);
    assert Visible(row, mask) == rest + [row[k]];
    assert context != [];
    assert RunOf(context)[..|context| - 1] == RunOf(context[..|context| - 1]);
    assert (rest + [row[k]])[..|rest|] == rest;
  }

  // Dropping real columns from the end drops tokens from the end.
  lemma {:induction false} CropIsClean(row: seq<Vector>, mask: seq<bool>, context: seq<Token>, keep: nat)
    requires Clean(row, mask, context) && keep <= |row|
    requires forall c | keep <= c < |mask| :: mask[c]
    ensures |row| - keep <= |context|
    ensures Clean(row[..keep], mask[..keep], context[..|context| - (|row| - keep)])
    decreases |row|
  {
    if keep == |row| {
      assert row[..keep] == row && mask[..keep] == mask && context[..|context|] == context;
    } else {
      var k := |row| - 1;
      LastIsClean(row, mask, context);
      CropIsClean(row[..k], mask[..k], context[..|context| - 1], keep);
      assert row[..k][..keep] == row[..keep] && mask[..k][..keep] == mask[..keep];
      assert context[..|context| - 1][..|context| - 1 - (k - keep)] == context[..|context| - (|row| - keep)];
    }
  }

  // A batch's cache: one row of vectors per sequence, changed in place.
  class BatchCache {
    var rows: seq<seq<Vector>>

    constructor (n: nat)
      ensures |rows| == n && forall i | 0 <= i < n :: rows[i] == []
    {
      rows := seq(n, _ => []);
    }

    // One forward pass of the whole batch: appends the new vectors and predicts after each.
    method Forward(head: Head, tokens: seq<seq<Token>>, mask: seq<seq<bool>>) returns (predictions: seq<seq<Token>>)
      requires |tokens| == |mask| == |rows|
      requires forall i | 0 <= i < |rows| :: |mask[i]| == |rows[i]| + |tokens[i]|
      modifies this
      ensures |rows| == |old(rows)| == |predictions|
      ensures forall i | 0 <= i < |rows| ::
                && rows[i] == Extended(old(rows)[i], mask[i], tokens[i])
                && predictions[i] == Predictions(head, rows[i], mask[i], |tokens[i]|)
    {
      predictions := [];
      for i := 0 to |rows|
        invariant |rows| == |old(rows)| && |predictions| == i
        invariant forall k | 0 <= k < i :: rows[k] == Extended(old(rows)[k], mask[k], tokens[k])
        invariant forall k | 0 <= k < i :: predictions[k] == Predictions(head, rows[k], mask[k], |tokens[k]|)
        invariant forall k | i <= k < |rows| :: rows[k] == old(rows)[k]
      {
        var row, predicted := ForwardRow(head, rows[i], mask[i], tokens[i]);
        rows := rows[i := row];
        predictions := predictions + [predicted];
      }
    }

    // Drops the last `over` columns of every row.
    method Crop(over: nat)
      requires forall i | 0 <= i < |rows| :: over <= |rows[i]|
      modifies this
      ensures |rows| == |old(rows)|
      ensures forall i | 0 <= i < |rows| :: rows[i] == old(rows)[i][..|old(rows)[i]| - over]
    {
      for i := 0 to |rows|
        invariant |rows| == |old(rows)|
        invariant forall k | 0 <= k < i :: rows[k] == old(rows)[k][..|old(rows)[k]| - over]
        invariant forall k | i <= k < |rows| :: rows[k] == old(rows)[k]
      {
        rows := rows[i := rows[i][..|rows[i]| - over]];
      }
    }
  }

  lemma NotExtended(head: Head, row: seq<Vector>, mask: seq<bool>)
    requires |row| <= |mask|
    ensures Extended(row, mask[..|row|], []) == row && Predictions(head, row, mask[..|row|], 0) == []
  {
  }

  lemma ExtendedLast(row: seq<Vector>, mask: seq<bool>, tokens: seq<Token>)
    requires |mask| == |row| + |tokens| && tokens != []
    ensures var k := |mask| - 1;
            var before := Extended(row, mask[..k], tokens[..|tokens| - 1]);
            Extended(row, mask, tokens)
            == before + [Vector(Visible(before, mask[..k]), tokens[|tokens| - 1], PositionId(mask))]
  {
    hide Visible, PositionId;
  }

  lemma ExtendedOnce(row: seq<Vector>, mask: seq<bool>, tokens: seq<Token>, j: nat)
    requires |mask| == |row| + |tokens| && j < |tokens|
    ensures var upto := |row| + j;
            var before := Extended(row, mask[..upto], tokens[..j]);
            Extended(row, mask[..upto + 1], tokens[..j + 1])
            == before + [Vector(Visible(before, mask[..upto]), tokens[j], PositionId(mask[..upto + 1]))]
  {
    hide Visible, PositionId, Extended;
    var upto := |row| + j;
    var some, seen := tokens[..j + 1], mask[..upto + 1];
    assert some[..|some| - 1] == tokens[..j] && seen[..|seen| - 1] == mask[..upto];
    ExtendedLast(row, seen, some);
  }

  // Token by token, each attending to what is visible before it.
  method ForwardRow(head: Head, row: seq<Vector>, mask: seq<bool>, tokens: seq<Token>)
    returns (extended: seq<Vector>, predicted: seq<Token>)
    requires |mask| == |row| + |tokens|
    ensures extended == Extended(row, mask, tokens)
    ensures predicted == Predictions(head, extended, mask, |tokens|)
  {
    hide Extended, Predictions, Visible, PositionId;
    NotExtended(head, row, mask);
    extended, predicted := row, [];
    for j := 0 to |tokens|
      invariant extended == Extended(row, mask[..|row| + j], tokens[..j])
      invariant predicted == Predictions(head, extended, mask[..|row| + j], j)
    {
      var upto := |row| + j;
      ghost var before := extended;
      ExtendedOnce(row, mask, tokens, j);
      extended := extended + [Vector(Visible(extended, mask[..upto]), tokens[j], PositionId(mask[..upto + 1]))];
      PredictionsGrow(head, before, extended, mask, upto, j);
      predicted := predicted + [head(Visible(extended, mask[..upto + 1]))];
    }
    assert mask[..|row| + |tokens|] == mask && tokens[..|tokens|] == tokens;
  }

  lemma PredictionsGrow(head: Head, before: seq<Vector>, after: seq<Vector>, mask: seq<bool>, upto: nat, j: nat)
    requires |before| == upto < |mask| && |after| == upto + 1 && after[..upto] == before && j <= upto
    ensures Predictions(head, after, mask[..upto + 1], j + 1)
         == Predictions(head, before, mask[..upto], j) + [head(Visible(after, mask[..upto + 1]))]
  {
    var all := Predictions(head, after, mask[..upto + 1], j + 1);
    forall i | 0 <= i < j ensures all[i] == Predictions(head, before, mask[..upto], j)[i] {
      var k := upto - j + i + 1;
      assert after[..k] == before[..k] && mask[..upto + 1][..k] == mask[..upto][..k];
    }
    assert after[..upto + 1] == after && mask[..upto + 1][..upto + 1] == mask[..upto + 1];
  }
}
