/** The tree that the indexed nodes of a StringAtomTree represent: a leaf is
    an up-link to node idx, a branch is node idx reached by a down-link. */
module PatriciaTrie {
  import opened Bytes
  import opened StringBits

  datatype Trie =
    | Leaf(idx: nat)
    | Branch(idx: nat, bit: nat, zero: Trie, one: Trie)

  function Leaves(t: Trie): set<nat> {
    match t
    case Leaf(k) => {k}
    case Branch(_, _, zero, one) => Leaves(zero) + Leaves(one)
  }

  function Branches(t: Trie): set<nat> {
    match t
    case Leaf(_) => {}
    case Branch(x, _, zero, one) => {x} + Branches(zero) + Branches(one)
  }

  function Side(t: Trie, s: Blob): Trie
    requires t.Branch?
  {
    if Bit(s, t.bit) == 0 then t.zero else t.one
  }

  /** Where the bits of s lead. */
  function Find(t: Trie, s: Blob): (k: nat)
    ensures k in Leaves(t)
  {
    match t
    case Leaf(k) => k
    case Branch(_, bit, zero, one) => if Bit(s, bit) == 0 then Find(zero, s) else Find(one, s)
  }

  ghost predicate AllHaveBit(ks: set<nat>, keys: seq<Blob>, bit: nat, value: nat)
    requires forall k | k in ks :: k < |keys|
  {
    forall k | k in ks :: Bit(keys[k], bit) == value
  }

  ghost predicate AllAgree(ks: set<nat>, keys: seq<Blob>, bit: nat)
    requires forall k | k in ks :: k < |keys|
  {
    forall j, k | j in ks && k in ks :: Agree(keys[j], keys[k], bit)
  }

  /** Bits increase along down-links starting above lo; a branch separates its
      keys by its bit, they agree on all bits before it, and its own key is
      one of them. */
  ghost predicate WellFormed(t: Trie, keys: seq<Blob>, lo: nat)
    ensures WellFormed(t, keys, lo) ==> forall k | k in Leaves(t) :: k < |keys|
  {
    match t
    case Leaf(k) => k < |keys|
    case Branch(x, bit, zero, one) =>
      && lo < bit
      && WellFormed(zero, keys, bit)
      && WellFormed(one, keys, bit)
      && x in Leaves(t)
      && AllHaveBit(Leaves(zero), keys, bit, 0)
      && AllHaveBit(Leaves(one), keys, bit, 1)
      && AllAgree(Leaves(t), keys, bit)
  }

  lemma {:induction false} BranchesAreLeaves(t: Trie, keys: seq<Blob>, lo: nat)
    requires WellFormed(t, keys, lo)
    ensures Branches(t) <= Leaves(t)
  {
    if t.Branch? {
      BranchesAreLeaves(t.zero, keys, t.bit);
      BranchesAreLeaves(t.one, keys, t.bit);
    }
  }

  /** A key whose bits are those of a stored key leads to that key. */
  lemma {:induction false} FindStored(t: Trie, keys: seq<Blob>, lo: nat, s: Blob, k: nat)
    requires WellFormed(t, keys, lo) && k in Leaves(t)
    requires SameBits(s, keys[k])
    ensures Find(t, s) == k
  {
    if t.Branch? {
      assert Bit(s, t.bit) == Bit(keys[k], t.bit);
      FindStored(Side(t, s), keys, t.bit, s, k);
    }
  }

  /** The key found shares with s the bits that led to it. */
  lemma {:induction false} FindFollows(t: Trie, keys: seq<Blob>, lo: nat, s: Blob)
    requires WellFormed(t, keys, lo) && t.Branch?
    ensures Bit(keys[Find(t, s)], t.bit) == Bit(s, t.bit)
  {
    assert Find(t, s) in Leaves(Side(t, s));
  }

  /** Insert leaf n for key s, which first differs at bit i from the key found. */
  function Splice(t: Trie, s: Blob, i: nat, n: nat): Trie {
    if t.Branch? && t.bit < i then
      if Bit(s, t.bit) == 0 then t.(zero := Splice(t.zero, s, i, n)) else t.(one := Splice(t.one, s, i, n))
    else
      Branch(n, i, if Bit(s, i) == 0 then Leaf(n) else t, if Bit(s, i) == 0 then t else Leaf(n))
  }

  ghost predicate FirstDifference(a: Blob, b: Blob, i: nat) {
    Agree(a, b, i) && Bit(a, i) != Bit(b, i)
  }

  lemma {:induction false} ExtendKeys(t: Trie, keys: seq<Blob>, lo: nat, s: Blob)
    requires WellFormed(t, keys, lo)
    ensures WellFormed(t, keys + [s], lo)
  {
    if t.Branch? {
      ExtendKeys(t.zero, keys, t.bit, s);
      ExtendKeys(t.one, keys, t.bit, s);
    }
  }

  /** Any lower bound that the splice bit exceeds still bounds the trie. */
  lemma RaiseBound(t: Trie, keys: seq<Blob>, lo: nat, i: nat)
    requires WellFormed(t, keys, lo)
    requires t.Branch? ==> i < t.bit
    ensures WellFormed(t, keys, i)
  {
  }

  lemma {:induction false} SpliceLeaves(t: Trie, s: Blob, i: nat, n: nat)
    ensures Leaves(Splice(t, s, i, n)) == Leaves(t) + {n}
  {
    if t.Branch? && t.bit < i {
      SpliceLeaves(Side(t, s), s, i, n);
    }
  }

  /** No branch on the way of s tests the first differing bit itself, and all
      keys at the splice point differ from s there. */
  lemma SplicePoint(t: Trie, keys: seq<Blob>, lo: nat, s: Blob, i: nat)
    requires WellFormed(t, keys, lo)
    requires FirstDifference(keys[Find(t, s)], s, i)
    requires t.Branch? ==> i <= t.bit
    ensures t.Branch? ==> i < t.bit
    ensures forall k | k in Leaves(t) :: FirstDifference(keys[k], s, i)
  {
    if t.Branch? {
      FindFollows(t, keys, lo, s);
      var f := Find(t, s);
      assert f in Leaves(t);
      forall k | k in Leaves(t)
        ensures FirstDifference(keys[k], s, i)
      {
        assert Agree(keys[k], keys[f], t.bit);
        forall b: nat | b < i
          ensures Bit(keys[k], b) == Bit(s, b)
        {
          assert Bit(keys[f], b) == Bit(s, b);
        }
      }
    }
  }

  /** A new key that agrees with one old key as far as all old keys agree joins them. */
  lemma JoinAgreement(ks: set<nat>, keys: seq<Blob>, f: nat, s: Blob, n: nat)
    requires forall k | k in ks :: k < |keys|
    requires f in ks && AllAgree(ks, keys, n) && Agree(keys[f], s, n)
    ensures AllAgree(ks + {|keys|}, keys + [s], n)
  {
    var keys' := keys + [s];
    forall j, k | j in ks + {|keys|} && k in ks + {|keys|}
      ensures Agree(keys'[j], keys'[k], n)
    {
      var j', k' := if j == |keys| then f else j, if k == |keys| then f else k;
      assert Agree(keys[j'], keys[k'], n);
      forall b: nat | b < n
        ensures Bit(keys'[j], b) == Bit(keys'[k], b)
      {
        assert Bit(keys[j'], b) == Bit(keys[k'], b) && Bit(keys[f], b) == Bit(s, b);
      }
    }
  }

  /** Keys that all agree with s before bit i agree with each other. */
  lemma AgreeThrough(ks: set<nat>, keys: seq<Blob>, s: Blob, i: nat)
    requires forall k | k in ks :: k < |keys| && FirstDifference(keys[k], s, i)
    ensures AllAgree(ks, keys, i)
  {
    forall j, k | j in ks && k in ks
      ensures Agree(keys[j], keys[k], i)
    {
      forall b: nat | b < i
        ensures Bit(keys[j], b) == Bit(keys[k], b)
      {
        assert Bit(keys[j], b) == Bit(s, b) && Bit(keys[k], b) == Bit(s, b);
      }
    }
  }

  /** The new branch at the splice point. */
  lemma NewBranchWellFormed(t: Trie, keys: seq<Blob>, lo: nat, s: Blob, i: nat)
    requires WellFormed(t, keys, lo) && lo < i
    requires FirstDifference(keys[Find(t, s)], s, i)
    requires t.Branch? ==> i <= t.bit
    ensures WellFormed(Splice(t, s, i, |keys|), keys + [s], lo)
  {
    SplicePoint(t, keys, lo, s, i);
    RaiseBound(t, keys, lo, i);
    ExtendKeys(t, keys, i, s);
    AgreeThrough(Leaves(t), keys, s, i);
    JoinAgreement(Leaves(t), keys, Find(t, s), s, i);
    SpliceLeaves(t, s, i, |keys|);
  }

  /** Insertion keeps the trie well-formed. */
  lemma {:induction false} SpliceWellFormed(t: Trie, keys: seq<Blob>, lo: nat, s: Blob, i: nat)
    requires WellFormed(t, keys, lo) && lo < i
    requires FirstDifference(keys[Find(t, s)], s, i)
    ensures WellFormed(Splice(t, s, i, |keys|), keys + [s], lo)
  {
    if t.Branch? && t.bit < i {
      SpliceWellFormed(Side(t, s), keys, t.bit, s, i);
      ExtendKeys(t, keys, lo, s);
      SpliceLeaves(t, s, i, |keys|);
      SpliceLeaves(Side(t, s), s, i, |keys|);
      JoinAgreement(Leaves(t), keys, Find(t, s), s, t.bit);
    } else {
      NewBranchWellFormed(t, keys, lo, s, i);
    }
  }
}
