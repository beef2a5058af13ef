// Arrival order: creation time, then request id, compared as Python compares the pairs.
module Arrival {

  datatype Key = Key(created: nat, id: string)

  predicate IdBefore(a: string, b: string) {
    if b == "" then false
    else if a == "" then true
    else if a[0] != b[0] then a[0] < b[0]
    else IdBefore(a[1..], b[1..])
  }

  // At `k` the first id has ended or has the smaller character, and up to there both are the same.
  ghost predicate DiffersAt(a: string, b: string, k: nat) {
    k <= |a| && k < |b| && a[..k] == b[..k] && (k == |a| || a[k] < b[k])
  }

  // Ids are compared at the first character that differs, and a proper prefix comes first.
  lemma {:induction false} IdBeforeMeans(a: string, b: string)
    ensures IdBefore(a, b) <==> exists k: nat :: DiffersAt(a, b, k)
    decreases |a|
  {
    if a == "" {
      assert b != "" ==> DiffersAt(a, b, 0);
    } else if b != "" && a[0] == b[0] {
      IdBeforeMeans(a[1..], b[1..]);
      if k: nat :| DiffersAt(a, b, k) {
        OneEarlier(a, b, k - 1);
      }
      if k: nat :| DiffersAt(a[1..], b[1..], k) {
        OneEarlier(a, b, k);
        assert DiffersAt(a, b, k + 1);
      }
    } else if b != "" {
      assert a[0] < b[0] ==> DiffersAt(a, b, 0);
      forall k: nat | k > 0 ensures !DiffersAt(a, b, k) { FirstDiffers(a, b, k); }
    }
  }

  lemma FirstDiffers(a: string, b: string, k: nat)
    requires a != "" && b != "" && k > 0
    ensures DiffersAt(a, b, k) ==> a[0] == b[0]
  {
    assert k <= |a| && k <= |b| ==> a[..k][0] == a[0] && b[..k][0] == b[0];
  }

  lemma OneEarlier(a: string, b: string, k: nat)
    requires a != "" && b != "" && a[0] == b[0]
    ensures DiffersAt(a[1..], b[1..], k) <==> DiffersAt(a, b, k + 1)
  {
    if k < |a| && k < |b| {
      assert a[..k + 1] == [a[0]] + a[1..][..k] && b[..k + 1] == [b[0]] + b[1..][..k];
    }
  }

  predicate Before(a: Key, b: Key) {
    a.created < b.created || (a.created == b.created && IdBefore(a.id, b.id))
  }

  lemma {:induction false} IdOrder(a: string, b: string, c: string)
    ensures !IdBefore(a, a)
    ensures a != b ==> IdBefore(a, b) || IdBefore(b, a)
    ensures IdBefore(a, b) && IdBefore(b, c) ==> IdBefore(a, c)
    ensures IdBefore(a, b) ==> !IdBefore(b, a)
    decreases |a|
  {
    if a != "" {
      IdOrder(a[1..], if b == "" then "" else b[1..], if c == "" then "" else c[1..]);
      if b != "" && a[0] == b[0] { assert a == [a[0]] + a[1..] && b == [b[0]] + b[1..]; }
    }
  }

  // Earlier creation comes first, and at equal times the smaller id.
  lemma BeforeMeans(a: Key, b: Key)
    ensures Before(a, b) <==>
            a.created < b.created || (a.created == b.created && exists k: nat :: DiffersAt(a.id, b.id, k))
  {
    IdBeforeMeans(a.id, b.id);
  }

  // Arrival is a strict total order on distinct requests.
  lemma ArrivalOrder(a: Key, b: Key, c: Key)
    ensures !Before(a, a)
    ensures a != b ==> Before(a, b) || Before(b, a)
    ensures Before(a, b) && Before(b, c) ==> Before(a, c)
    ensures Before(a, b) ==> !Before(b, a)
  {
    IdOrder(a.id, b.id, c.id);
  }
}
