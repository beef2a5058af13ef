// Who holds which physical block. The ledger is the abstraction that the allocator's
// reference counts and free list implement.
module Ownership {
  import opened Common

  datatype Owner = Request(id: string) | Node(node: nat) | Exact(entry: nat)

  type Ledger = map<Owner, seq<nat>>

  ghost function Holders(owned: Ledger, b: nat): set<Owner> {
    set o | o in owned && b in owned[o]
  }

  // Holders that belong to the prefix cache rather than to a request.
  ghost function CacheHolders(owned: Ledger, b: nat): set<Owner> {
    set o | o in owned && !o.Request? && b in owned[o]
  }

  ghost predicate Private(owned: Ledger, id: string, b: nat) {
    Holders(owned, b) == {Request(id)}
  }

  ghost predicate WellFormed(owned: Ledger, numBlocks: nat) {
    forall o | o in owned ::
      owned[o] != [] && Distinct(owned[o]) && forall b: nat | b in owned[o] :: b < numBlocks
  }

  ghost function Used(owned: Ledger, numBlocks: nat): set<nat> {
    set b: nat | 0 <= b < numBlocks && Holders(owned, b) != {}
  }

  // Reference counts: how many owners list each block.
  ghost predicate Counts(owned: Ledger, refs: seq<nat>) {
    forall b: nat | b < |refs| :: refs[b] == |Holders(owned, b)|
  }

  // The free list: the blocks without references, ascending, without repetition.
  ghost predicate FreeListOf(free: seq<nat>, refs: seq<nat>) {
    && Ascending(free)
    && forall b: nat :: b in free <==> b < |refs| && refs[b] == 0
  }

  lemma HoldersInsert(owned: Ledger, o: Owner, blocks: seq<nat>, b: nat)
    requires o !in owned
    ensures Holders(owned[o := blocks], b) == Holders(owned, b) + (if b in blocks then {o} else {})
    ensures o !in Holders(owned, b)
    ensures |Holders(owned[o := blocks], b)| == |Holders(owned, b)| + (if b in blocks then 1 else 0)
  {
    assert Holders(owned[o := blocks], b) == Holders(owned, b) + (if b in blocks then {o} else {});
  }

  lemma HoldersRemove(owned: Ledger, o: Owner, b: nat)
    requires o in owned
    ensures Holders(owned - {o}, b) == Holders(owned, b) - {o}
    ensures |Holders(owned - {o}, b)| == |Holders(owned, b)| - (if b in owned[o] then 1 else 0)
  {
    assert Holders(owned - {o}, b) == Holders(owned, b) - {o};
  }

  // Replacing one owner's list moves exactly that owner in and out of the holder sets.
  lemma HoldersReplace(owned: Ledger, o: Owner, blocks: seq<nat>, b: nat)
    requires o in owned
    ensures Holders(owned[o := blocks], b) == Holders(owned, b) - {o} + (if b in blocks then {o} else {})
    ensures |Holders(owned[o := blocks], b)|
         == |Holders(owned, b)| - (if b in owned[o] then 1 else 0) + (if b in blocks then 1 else 0)
  {
    assert Holders(owned[o := blocks], b) == Holders(owned, b) - {o} + (if b in blocks then {o} else {});
  }

  lemma CountsAfterInsert(owned: Ledger, refs: seq<nat>, o: Owner, blocks: seq<nat>, refs': seq<nat>)
    requires Counts(owned, refs) && o !in owned && |refs'| == |refs|
    requires forall b: nat | b < |refs| :: refs'[b] == refs[b] + if b in blocks then 1 else 0
    ensures Counts(owned[o := blocks], refs')
  {
    forall b: nat | b < |refs| ensures refs'[b] == |Holders(owned[o := blocks], b)| {
      HoldersInsert(owned, o, blocks, b);
    }
  }

  lemma CountsAfterRemove(owned: Ledger, refs: seq<nat>, o: Owner, refs': seq<nat>)
    requires Counts(owned, refs) && o in owned && |refs'| == |refs|
    requires forall b: nat | b < |refs| :: refs'[b] + (if b in owned[o] then 1 else 0) == refs[b]
    ensures Counts(owned - {o}, refs')
  {
    forall b: nat | b < |refs| ensures refs'[b] == |Holders(owned - {o}, b)| {
      HoldersRemove(owned, o, b);
    }
  }

  lemma CountsAfterReplace(owned: Ledger, refs: seq<nat>, o: Owner, blocks: seq<nat>, refs': seq<nat>)
    requires Counts(owned, refs) && o in owned && |refs'| == |refs|
    requires forall b: nat | b < |refs| ::
               refs'[b] + (if b in owned[o] then 1 else 0) == refs[b] + (if b in blocks then 1 else 0)
    ensures Counts(owned[o := blocks], refs')
  {
    forall b: nat | b < |refs| ensures refs'[b] == |Holders(owned[o := blocks], b)| {
      HoldersReplace(owned, o, blocks, b);
    }
  }

  // A block has references exactly when some owner lists it.
  lemma ListedMeansCounted(owned: Ledger, refs: seq<nat>, o: Owner)
    requires Counts(owned, refs) && WellFormed(owned, |refs|)
    ensures o in owned ==> forall b: nat | b in owned[o] :: b < |refs| && refs[b] > 0
  {
    if o in owned {
      forall b: nat | b in owned[o] ensures b < |refs| && refs[b] > 0 {
        assert o in Holders(owned, b);
      }
    }
  }

  lemma UncountedMeansUnlisted(owned: Ledger, refs: seq<nat>, b: nat)
    requires Counts(owned, refs) && b < |refs|
    ensures refs[b] == 0 <==> Holders(owned, b) == {}
    ensures refs[b] == 0 ==> forall o | o in owned :: b !in owned[o]
  {
    if refs[b] == 0 {
      forall o | o in owned ensures b !in owned[o] { assert o !in Holders(owned, b); }
    }
  }
}
