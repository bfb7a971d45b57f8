/** What a StringAtomTree promises, stated on its table of keys: index 0 is the
    root, every other index holds the key that was stored there. */
module AtomTables {
  import opened Bytes
  import opened StringBits

  /** Larger keys would not fit the unsigned bit positions. */
  const MAX_KEY_SIZE := 0x2000_0000

  datatype Found = At(index: nat) | Npos

  /** Keys the search can ever reach: the root, whose own key is the empty
      string, only follows kids[0]. */
  predicate Reachable(s: Blob) {
    Bit(s, 0) == 0
  }

  function Lookup(table: seq<Blob>, s: Blob): (r: Found)
    ensures r.At? ==> r.index < |table| && table[r.index] == s
    ensures r.Npos? ==> forall k | 0 <= k < |table| :: table[k] != s
  {
    if table == [] then Npos
    else if table[|table| - 1] == s then At(|table| - 1)
    else Lookup(table[..|table| - 1], s)
  }

  function SearchTable(table: seq<Blob>, s: Blob): Found {
    if Reachable(s) then Lookup(table, s) else Npos
  }

  function InsertTable(table: seq<Blob>, s: Blob): seq<Blob> {
    if SearchTable(table, s).At? then table else table + [s]
  }

  function InsertIndex(table: seq<Blob>, s: Blob): nat {
    match SearchTable(table, s)
    case At(k) => k
    case Npos => |table|
  }

  /** The search for the first differing bit never ends: s is new and differs
      from a key of the tree, or from the root's empty key, in trailing NULs only. */
  ghost predicate Hangs(table: seq<Blob>, s: Blob) {
    && SearchTable(table, s) == Npos
    && Bit(s, 0) == 0
    && exists k :: 0 <= k < |table| && Strip(table[k]) == Strip(s)
  }

  /** Only the root's key is empty, and only keys out of reach repeat. */
  ghost predicate Distinct(table: seq<Blob>) {
    && |table| >= 1 && table[0] == []
    && (forall j, k | 0 <= j < k < |table| && Reachable(table[j]) :: table[j] != table[k])
  }

  /** For the empty string, which has no limit of bits, the walk stays within
      the terminating NUL only while no key begins with a NUL. */
  predicate Within(table: seq<Blob>, s: Blob) {
    s == [] ==> forall k | 1 <= k < |table| :: CharAt(table[k], 0) != 0
  }

  /** The insertion of s ends, and reads only s. */
  ghost predicate Insertable(table: seq<Blob>, s: Blob) {
    |s| < MAX_KEY_SIZE && Within(table, s) && !Hangs(table, s)
  }

  /** Inserting never moves a key, returns an index holding the key, and finds
      an interned key again. */
  lemma InsertFacts(table: seq<Blob>, s: Blob)
    requires Distinct(table)
    ensures var t := InsertTable(table, s);
            && Distinct(t) && table <= t && InsertIndex(table, s) < |t| && t[InsertIndex(table, s)] == s
            && (Reachable(s) ==> InsertTable(t, s) == t && SearchTable(t, s) == At(InsertIndex(table, s)))
  {
    assert (table + [s])[..|table|] == table;
  }

  /** A search finds the index of a stored key, for reachable keys and no others. */
  lemma SearchFindsStored(table: seq<Blob>, k: nat)
    requires Distinct(table) && k < |table|
    ensures SearchTable(table, table[k]) == (if Reachable(table[k]) then At(k) else Npos)
  {
  }

  /** Earlier answers of the table stay valid. */
  lemma InsertKeepsOthers(table: seq<Blob>, s: Blob, q: Blob)
    requires Distinct(table) && q != s
    ensures SearchTable(InsertTable(table, s), q) == SearchTable(table, q)
  {
    assert (table + [s])[..|table|] == table;
  }

  /** The empty string is found at the root. */
  lemma RootFound(table: seq<Blob>)
    requires Distinct(table)
    ensures SearchTable(table, []) == At(0)
  {
    SearchFindsStored(table, 0);
  }

  function InsertAll(table: seq<Blob>, ss: seq<Blob>): seq<Blob> {
    if ss == [] then table else InsertTable(InsertAll(table, ss[..|ss| - 1]), ss[|ss| - 1])
  }

  /** Over any run of inserts a reachable string is found iff it was inserted,
      and then at the index its first insertion returned; the empty one is
      always found. */
  lemma {:induction false} SearchAfterRun(ss: seq<Blob>, q: Blob)
    ensures var t := InsertAll([[]], ss);
            && Distinct(t)
            && (SearchTable(t, q).At? <==> (q == [] || q in ss) && Reachable(q))
            && (q == [] ==> SearchTable(t, q) == At(0))
            && (forall n | 0 <= n < |ss| && ss[n] == q && Reachable(q) ::
                  SearchTable(t, q) == At(InsertIndex(InsertAll([[]], ss[..n]), q)))
  {
    if ss != [] {
      var init, last := ss[..|ss| - 1], ss[|ss| - 1];
      SearchAfterRun(init, q);
      var t := InsertAll([[]], init);
      InsertFacts(t, last);
      if q != last {
        InsertKeepsOthers(t, last, q);
      }
      forall n | 0 <= n < |ss| && ss[n] == q && Reachable(q)
        ensures SearchTable(InsertAll([[]], ss), q) == At(InsertIndex(InsertAll([[]], ss[..n]), q))
      {
        assert n < |init| ==> ss[..n] == init[..n] && init[n] == q;
      }
    }
  }

  /** The index of the atom made n-th in a run. */
  function AtomIndex(ss: seq<Blob>, n: nat): nat
    requires n < |ss|
  {
    InsertIndex(InsertAll([[]], ss[..n]), ss[n])
  }

  lemma RunNext(ss: seq<Blob>, n: nat)
    requires n < |ss|
    ensures InsertAll([[]], ss[..n + 1]) == InsertTable(InsertAll([[]], ss[..n]), ss[n])
  {
    assert ss[..n + 1][..n] == ss[..n];
  }

  /** What an insertion returned stays that string's place in later tables. */
  lemma {:induction false} AtomStays(ss: seq<Blob>, n: nat, m: nat)
    requires n < m <= |ss|
    ensures var t := InsertAll([[]], ss[..m]);
      AtomIndex(ss, n) < |t| && t[AtomIndex(ss, n)] == ss[n]
  {
    var init := ss[..m - 1];
    RunNext(ss, m - 1);
    SearchAfterRun(init, ss[m - 1]);
    InsertFacts(InsertAll([[]], init), ss[m - 1]);
    hide InsertAll, InsertTable, InsertIndex, Distinct, SearchTable;
    if n < m - 1 {
      AtomStays(ss, n, m - 1);
    }
  }

  /** Atoms are compared by index. Of any two atoms made in one tree, with any
      others in between, the indexes are equal iff the strings are equal and
      reachable. */
  lemma AtomEquality(ss: seq<Blob>, m: nat, n: nat)
    requires m < n < |ss|
    ensures AtomIndex(ss, m) == AtomIndex(ss, n) <==> ss[m] == ss[n] && Reachable(ss[m])
  {
    AtomStays(ss, m, n);
    AtomStays(ss, m, n + 1);
    AtomStays(ss, n, n + 1);
    SearchAfterRun(ss[..n], ss[n]);
    assert ss[..n][m] == ss[m] && ss[..n][..m] == ss[..m];
  }

  /** A key with its first bit set is stored by every insertion and never found. */
  lemma HighKeysRepeat(table: seq<Blob>, s: Blob)
    requires Bit(s, 0) == 1
    ensures var once := InsertTable(table, s);
      once == table + [s] && SearchTable(once, s) == Npos && InsertTable(once, s) == table + [s] + [s]
  {
  }

  /** The first byte 0x80 makes such a key. */
  lemma HighKeyExample()
    ensures InsertAll([[]], [[0x80], [0x80]]) == [[], [0x80], [0x80]]
    ensures SearchTable(InsertAll([[]], [[0x80], [0x80]]), [0x80]) == Npos
  {
    var s: Blob := [0x80];
    HighKeysRepeat([[]], s);
    assert [s, s][..1] == [s] && [s][..0] == [];
    assert InsertAll([[]], [s]) == InsertTable([[]], s);
  }

  /** A stored key with a NUL appended, unless stored itself, makes insert hang. */
  lemma NulAppendedHangs(table: seq<Blob>, k: nat)
    requires Distinct(table) && k < |table| && Reachable(table[k] + [0])
    ensures Hangs(table, table[k] + [0]) <==> table[k] + [0] !in table
  {
    assert (table[k] + [0])[..|table[k]|] == table[k];
  }

  /** After "a" the string "a" with a NUL does. */
  lemma HangExample()
    ensures Hangs(InsertAll([[]], [[97]]), [97, 0])
  {
    var s: Blob := [97];
    assert [s][..0] == [];
    assert InsertAll([[]], [s]) == [[], s];
    assert [97, 0] == s + [0];
    NulAppendedHangs([[], s], 1);
  }

  /** The strings of a file section in order, each with its object index. */
  datatype Record = Record(index: nat, data: Blob)

  function Data(records: seq<Record>): (r: seq<Blob>)
    ensures |r| == |records|
  {
    seq(|records|, k requires 0 <= k < |records| => records[k].data)
  }

  /** What readStrings checks of record n, with the earlier ones inserted. */
  ghost predicate Verified(table: seq<Blob>, records: seq<Record>, n: nat)
    requires n < |records|
  {
    InsertIndex(InsertAll(table, Data(records[..n])), records[n].data) == records[n].index
  }

  /** Record n can be inserted at all. */
  ghost predicate Readable(table: seq<Blob>, records: seq<Record>, n: nat)
    requires n < |records|
  {
    Insertable(InsertAll(table, Data(records[..n])), records[n].data)
  }

  lemma {:induction false} InsertAllLength(table: seq<Blob>, ss: seq<Blob>)
    ensures table <= InsertAll(table, ss) && |InsertAll(table, ss)| <= |table| + |ss|
  {
    if ss != [] {
      InsertAllLength(table, ss[..|ss| - 1]);
    }
  }

  /** The first n records pass their check. */
  ghost predicate VerifiedUpTo(table: seq<Blob>, records: seq<Record>, n: nat)
    requires n <= |records|
  {
    n > 0 ==> VerifiedUpTo(table, records, n - 1) && Verified(table, records, n - 1)
  }

  lemma {:induction false} VerifiedUpToEach(table: seq<Blob>, records: seq<Record>, n: nat)
    requires n <= |records|
    ensures VerifiedUpTo(table, records, n) <==> forall m | 0 <= m < n :: Verified(table, records, m)
  {
    if n > 0 {
      VerifiedUpToEach(table, records, n - 1);
    }
  }

  lemma InsertNext(table: seq<Blob>, records: seq<Record>, n: nat)
    requires n < |records|
    ensures InsertAll(table, Data(records[..n + 1]))
         == InsertTable(InsertAll(table, Data(records[..n])), records[n].data)
    ensures |InsertAll(table, Data(records[..n]))| <= |table| + n
  {
    assert Data(records[..n + 1])[..n] == Data(records[..n]);
    InsertAllLength(table, Data(records[..n]));
  }

  function WrittenFrom(table: seq<Blob>, base: nat): (r: seq<Record>)
    requires base <= |table|
    ensures |r| == |table| - base
  {
    seq(|table| - base, k requires 0 <= k < |table| - base => Record(base + k, table[base + k]))
  }

  /** No two keys of a tree differ only in trailing NULs. */
  ghost predicate Separated(table: seq<Blob>) {
    && Distinct(table)
    && forall j, k | 0 <= j < k < |table| && Reachable(table[k]) :: Strip(table[j]) != Strip(table[k])
  }

  lemma InsertAllPush(table: seq<Blob>, ss: seq<Blob>, s: Blob)
    ensures InsertAll(table, ss + [s]) == InsertTable(InsertAll(table, ss), s)
  {
    assert (ss + [s])[..|ss|] == ss;
  }

  /** Each key of a table is new to the keys before it. */
  lemma NextIsNew(table: seq<Blob>, m: nat)
    requires Distinct(table) && 1 <= m < |table|
    ensures SearchTable(table[..m], table[m]) == Npos
    ensures InsertTable(table[..m], table[m]) == table[..m + 1]
  {
    assert forall k | 0 <= k < m :: table[..m][k] == table[k];
    assert table[..m] + [table[m]] == table[..m + 1];
  }

  lemma WrittenNext(table: seq<Blob>, base: nat, n: nat)
    requires base + n < |table|
    ensures Data(WrittenFrom(table, base)[..n + 1]) == Data(WrittenFrom(table, base)[..n]) + [table[base + n]]
  {
  }

  lemma {:induction false} Reinsert(table: seq<Blob>, base: nat, n: nat)
    requires Distinct(table) && 1 <= base && base + n <= |table|
    ensures InsertAll(table[..base], Data(WrittenFrom(table, base)[..n])) == table[..base + n]
  {
    if n == 0 {
      assert Data(WrittenFrom(table, base)[..0]) == [];
    } else {
      hide InsertAll, InsertTable, WrittenFrom, Data, Distinct;
      Reinsert(table, base, n - 1);
      WrittenNext(table, base, n - 1);
      InsertAllPush(table[..base], Data(WrittenFrom(table, base)[..n - 1]), table[base + n - 1]);
      NextIsNew(table, base + n - 1);
    }
  }

  /** Writing the keys of a tree from index base on and reading them into a
      tree holding the keys before base can always be done, gives every key its
      old index, so that the check in readStrings never fails, and rebuilds the table. */
  lemma ReadBack(table: seq<Blob>, base: nat)
    requires Separated(table) && 1 <= base <= |table|
    requires forall s | s in table :: |s| < MAX_KEY_SIZE
    ensures var records := WrittenFrom(table, base);
      && (forall n | 0 <= n < |records| :: Readable(table[..base], records, n) && Verified(table[..base], records, n))
      && InsertAll(table[..base], Data(records)) == table
  {
    hide Insertable, Verified, InsertAll, Separated;
    var records := WrittenFrom(table, base);
    forall n | 0 <= n < |records|
      ensures Readable(table[..base], records, n) && Verified(table[..base], records, n)
    {
      ReadOne(table, base, n);
    }
    Reinsert(table, base, |records|) by { assert Distinct(table) by { SeparatedDistinct(table); } }
    assert records[..|records|] == records && table[..|table|] == table;
  }

  lemma SeparatedDistinct(table: seq<Blob>)
    requires Separated(table)
    ensures Distinct(table)
  {
  }

  lemma ReadOne(table: seq<Blob>, base: nat, n: nat)
    requires Separated(table) && 1 <= base && base + n < |table|
    requires forall s | s in table :: |s| < MAX_KEY_SIZE
    ensures var records := WrittenFrom(table, base);
      Readable(table[..base], records, n) && Verified(table[..base], records, n)
  {
    var t, s := table[..base + n], table[base + n];
    Reinsert(table, base, n);
    assert WrittenFrom(table, base)[n].data == s;
    hide InsertAll, WrittenFrom, Insertable, InsertIndex, Separated;
    NextInsertable(table, base + n);
  }

  /** Each key of a table can be inserted after those before it. */
  lemma NextInsertable(table: seq<Blob>, m: nat)
    requires Separated(table) && 1 <= m < |table| && |table[m]| < MAX_KEY_SIZE
    ensures Insertable(table[..m], table[m]) && InsertIndex(table[..m], table[m]) == m
  {
    NextIsNew(table, m);
    assert table[m] != table[0];
    assert forall k | 0 <= k < m :: table[..m][k] == table[k];
    hide Strip, InsertTable, Distinct, SearchTable;
  }
}

/** The tree of StringAtom.h: an array of nodes that refer to each other by index. */
module StringAtoms {
  import opened Bytes
  import opened StringBits
  import opened PatriciaTrie
  import opened AtomTables

  datatype Node = Node(s: Blob, bit: nat, maxbit: nat, kid0: nat, kid1: nat) {
    function Kid(b: nat): nat {
      if b == 0 then kid0 else kid1
    }

    function WithKid(b: nat, t: nat): Node {
      if b == 0 then this.(kid0 := t) else this.(kid1 := t)
    }
  }

  /** s.size() * CHAR_BIT - 1 as the unsigned int that bits() takes. */
  function SizeMaxBit(s: Blob): nat {
    (|s| * CHAR_BIT - 1) % 0x1_0000_0000
  }

  /** Below the size limit bits() reads the padded bits of a key; of the empty
      one, whose maxbit wraps around, as far as its NUL goes. */
  lemma KeyBits(s: Blob, i: nat)
    requires |s| < MAX_KEY_SIZE && (s == [] ==> i > SizeMaxBit(s) || i < CHAR_BIT)
    ensures i > SizeMaxBit(s) || i / CHAR_BIT <= |s|
    ensures Bits(s, SizeMaxBit(s), i) == Bit(s, i)
  {
    if s != [] {
      assert SizeMaxBit(s) == MaxBit(s);
      BitsIsBit(s, i);
    }
  }

  function Keys(tree: seq<Node>): (keys: seq<Blob>)
    ensures |keys| == |tree|
    ensures forall k | 0 <= k < |tree| :: keys[k] == tree[k].s
  {
    seq(|tree|, k requires 0 <= k < |tree| => tree[k].s)
  }

  /** The nodes below the link to x, coming from a node testing bit lo, are t.
      A link to a node whose bit does not exceed lo is an up-link. */
  ghost predicate Represents(tree: seq<Node>, lo: nat, x: nat, t: Trie)
    decreases t
  {
    match t
    case Leaf(k) => x == k && k < |tree| && tree[k].bit <= lo
    case Branch(i, bit, zero, one) =>
      && x == i && i < |tree| && tree[i].bit == bit && lo < bit
      && Represents(tree, bit, tree[i].kid0, zero)
      && Represents(tree, bit, tree[i].kid1, one)
  }

  lemma {:induction false} RepresentsFrame(tree: seq<Node>, tree': seq<Node>, lo: nat, x: nat, t: Trie)
    requires Represents(tree, lo, x, t) && |tree| <= |tree'|
    requires forall k | 0 <= k < |tree| :: tree'[k].bit == tree[k].bit
    requires forall k | k in Branches(t) && k < |tree| :: tree'[k] == tree[k]
    ensures Represents(tree', lo, x, t)
    decreases t
  {
    if t.Branch? {
      RepresentsFrame(tree, tree', t.bit, tree[x].kid0, t.zero);
      RepresentsFrame(tree, tree', t.bit, tree[x].kid1, t.one);
    }
  }

  function SpliceParent(t: Trie, s: Blob, i: nat, p: nat): nat {
    if t.Branch? && t.bit < i then SpliceParent(Side(t, s), s, i, t.idx) else p
  }

  function SpliceAt(t: Trie, s: Blob, i: nat): Trie {
    if t.Branch? && t.bit < i then SpliceAt(Side(t, s), s, i) else t
  }

  lemma {:induction false} SpliceParentIn(t: Trie, s: Blob, i: nat, p: nat)
    requires t.Branch? && t.bit < i
    ensures SpliceParent(t, s, i, p) in Branches(t)
  {
    var side := Side(t, s);
    if side.Branch? && side.bit < i {
      SpliceParentIn(side, s, i, t.idx);
    }
  }

  lemma SidesDisjoint(t: Trie, keys: seq<Blob>, lo: nat)
    requires WellFormed(t, keys, lo) && t.Branch?
    ensures Branches(t.zero) !! Branches(t.one)
  {
    BranchesAreLeaves(t.zero, keys, t.bit);
    BranchesAreLeaves(t.one, keys, t.bit);
  }

  lemma {:induction false} BranchBitsAbove(tree: seq<Node>, lo: nat, x: nat, t: Trie)
    requires Represents(tree, lo, x, t)
    ensures forall k | k in Branches(t) :: k < |tree| && lo < tree[k].bit
    decreases t
  {
    if t.Branch? {
      BranchBitsAbove(tree, t.bit, tree[x].kid0, t.zero);
      BranchBitsAbove(tree, t.bit, tree[x].kid1, t.one);
    }
  }

  /** tree' is tree with node n appended and linked below p on the side of s. */
  ghost predicate Linked(tree: seq<Node>, tree': seq<Node>, p: nat, s: Blob, i: nat, old_: nat) {
    && p < |tree| && |tree'| == |tree| + 1
    && (forall k | 0 <= k < |tree| && k != p :: tree'[k] == tree[k])
    && tree'[p] == tree[p].WithKid(Bit(s, tree[p].bit), |tree|)
    && tree'[|tree|].bit == i
    && tree'[|tree|].Kid(Bit(s, i)) == |tree|
    && tree'[|tree|].Kid(1 - Bit(s, i)) == old_
  }

  /** Relinking one kid of one node in place is the insertion into the trie. */
  lemma {:induction false} SpliceRepresents(
    tree: seq<Node>, tree': seq<Node>, t: Trie, lo: nat, x: nat, p: nat, s: Blob, i: nat)
    requires Represents(tree, lo, x, t) && WellFormed(t, Keys(tree), lo) && lo < i
    requires p < |tree| && tree[p].bit <= lo
    requires FirstDifference(tree[Find(t, s)].s, s, i)
    requires Linked(tree, tree', SpliceParent(t, s, i, p), s, i, SpliceAt(t, s, i).idx)
    ensures Represents(tree', lo, if t.Branch? && t.bit < i then x else |tree|, Splice(t, s, i, |tree|))
  {
    hide FirstDifference, Bit, Leaves;
    var keys := Keys(tree);
    if t.Branch? && t.bit < i {
      var side := Side(t, s);
      var other := if Bit(s, t.bit) == 0 then t.one else t.zero;
      var sideX := tree[x].Kid(Bit(s, t.bit));
      SidesDisjoint(t, keys, lo);
      SpliceRepresents(tree, tree', side, t.bit, sideX, t.idx, s, i);
      BranchBitsAbove(tree, t.bit, sideX, side);
      BranchBitsAbove(tree, t.bit, tree[x].Kid(1 - Bit(s, t.bit)), other);
      if side.Branch? && side.bit < i {
        SpliceParentIn(side, s, i, t.idx);
      }
      RepresentsFrame(tree, tree', t.bit, tree[x].Kid(1 - Bit(s, t.bit)), other);
    } else {
      SplicePoint(t, keys, lo, s, i);
      BranchBitsAbove(tree, lo, x, t);
      RepresentsFrame(tree, tree', lo, x, t);
    }
  }

  ghost predicate ValidTree(tree: seq<Node>, t: Trie) {
    && 1 <= |tree|
    && tree[0].s == [] && tree[0].bit == 0 && tree[0].maxbit == 0
    && (forall k | 1 <= k < |tree| ::
          0 < |tree[k].s| < MAX_KEY_SIZE && tree[k].maxbit == SizeMaxBit(tree[k].s))
    && (forall k | 0 <= k < |tree| :: k in Leaves(t) <==> Reachable(tree[k].s))
    && WellFormed(t, Keys(tree), 0)
    && Represents(tree, 0, tree[0].kid0, t)
  }

  lemma NodeMaxBit(tree: seq<Node>, t: Trie, k: nat)
    requires ValidTree(tree, t) && k < |tree|
    ensures tree[k].maxbit == MaxBit(tree[k].s)
  {
    hide Represents, WellFormed;
  }

  /** Seen from the root, which only has a link for first bit 0. */
  lemma RootSplice(tree: seq<Node>, tree': seq<Node>, t: Trie, s: Blob, i: nat)
    requires |tree| >= 1 && tree[0].bit == 0 && Represents(tree, 0, tree[0].kid0, t)
    requires WellFormed(t, Keys(tree), 0)
    requires FirstDifference(tree[Find(t, s)].s, s, i)
    requires Linked(tree, tree', SpliceParent(t, s, i, 0), s, i, SpliceAt(t, s, i).idx)
    ensures Bit(s, 0) == 0 && 0 < i ==> Represents(tree', 0, tree'[0].kid0, Splice(t, s, i, |tree|))
    ensures Bit(s, 0) != 0 && i == 0 ==> Represents(tree', 0, tree'[0].kid0, t)
  {
    BranchBitsAbove(tree, 0, tree[0].kid0, t);
    if i > 0 {
      SpliceRepresents(tree, tree', t, 0, tree[0].kid0, 0, s, i);
      if t.Branch? && t.bit < i {
        SpliceParentIn(t, s, i, 0);
      }
    } else {
      RepresentsFrame(tree, tree', 0, tree[0].kid0, t);
    }
  }

  /** A key differs in its first bit from the key found iff the root cannot reach it. */
  lemma FirstBitSplits(keys: seq<Blob>, t: Trie, s: Blob, i: nat)
    requires WellFormed(t, keys, 0)
    requires forall k | k in Leaves(t) :: Bit(keys[k], 0) == 0
    requires FirstDifference(keys[Find(t, s)], s, i)
    ensures i == 0 <==> Bit(s, 0) != 0
  {
    assert Bit(keys[Find(t, s)], 0) == 0;
    if i > 0 {
      assert Bit(keys[Find(t, s)], 0) == Bit(s, 0);
    }
  }

  function TrieAfter(t: Trie, s: Blob, i: nat, n: nat): Trie {
    if i > 0 then Splice(t, s, i, n) else t
  }

  lemma LinkKeepsTrie(tree: seq<Node>, tree': seq<Node>, t: Trie, s: Blob, i: nat)
    requires |tree| >= 1 && tree[0].bit == 0 && Represents(tree, 0, tree[0].kid0, t)
    requires WellFormed(t, Keys(tree), 0)
    requires i == 0 <==> Bit(s, 0) != 0
    requires FirstDifference(tree[Find(t, s)].s, s, i)
    requires Linked(tree, tree', SpliceParent(t, s, i, 0), s, i, SpliceAt(t, s, i).idx)
    ensures var t' := TrieAfter(t, s, i, |tree|);
      && WellFormed(t', Keys(tree) + [s], 0)
      && Represents(tree', 0, tree'[0].kid0, t')
      && Leaves(t') == if i > 0 then Leaves(t) + {|tree|} else Leaves(t)
  {
    RootSplice(tree, tree', t, s, i);
    if i > 0 {
      SpliceWellFormed(t, Keys(tree), 0, s, i);
      SpliceLeaves(t, s, i, |tree|);
    } else {
      ExtendKeys(t, Keys(tree), 0, s);
    }
  }

  /** Linking a new node keeps the tree valid; a key the root cannot reach
      leaves the trie alone. */
  lemma LinkKeepsValid(tree: seq<Node>, tree': seq<Node>, t: Trie, s: Blob, i: nat)
    requires ValidTree(tree, t) && 0 < |s| < MAX_KEY_SIZE
    requires FirstDifference(tree[Find(t, s)].s, s, i)
    requires Linked(tree, tree', SpliceParent(t, s, i, 0), s, i, SpliceAt(t, s, i).idx)
    requires tree'[|tree|].s == s && tree'[|tree|].maxbit == SizeMaxBit(s)
    ensures ValidTree(tree', TrieAfter(t, s, i, |tree|)) && Keys(tree') == Keys(tree) + [s]
  {
    hide Represents, WellFormed, FirstDifference, SpliceParent, SpliceAt, Find, Leaves, Splice, SizeMaxBit;
    assert Keys(tree') == Keys(tree) + [s];
    FirstBitSplits(Keys(tree), t, s, i);
    LinkKeepsTrie(tree, tree', t, s, i);
    assert Reachable(s) <==> i > 0;
  }

  /** One step of the walk to the splice point. */
  lemma SpliceStep(tree: seq<Node>, p: nat, x: nat, t: Trie, s: Blob, i: nat)
    requires p < |tree| && x < |tree| && Represents(tree, tree[p].bit, x, t)
    ensures tree[p].bit < tree[x].bit <==> t.Branch?
    ensures t.Branch? ==>
      var kid := tree[x].Kid(Bit(s, tree[x].bit));
      && kid < |tree| && Represents(tree, tree[x].bit, kid, Side(t, s)) && t.bit == tree[x].bit
      && Find(t, s) == Find(Side(t, s), s)
    ensures t.Branch? && tree[x].bit < i ==>
      && SpliceParent(t, s, i, p) == SpliceParent(Side(t, s), s, i, x)
      && SpliceAt(t, s, i) == SpliceAt(Side(t, s), s, i)
    ensures !(t.Branch? && tree[x].bit < i) ==>
      SpliceParent(t, s, i, p) == p && SpliceAt(t, s, i) == t
    ensures x == t.idx
  {
  }

  // ----- the empty string

  /** The bits that the walk of s tests. */
  function PathBits(t: Trie, s: Blob): set<nat> {
    match t
    case Leaf(_) => {}
    case Branch(_, bit, _, _) => {bit} + PathBits(Side(t, s), s)
  }

  /** A key that the empty string is told from has a bit set where the walk of
      the empty string tests it. */
  lemma {:induction false} PathTells(t: Trie, keys: seq<Blob>, lo: nat, k: nat) returns (b: nat)
    requires WellFormed(t, keys, lo) && keys != [] && keys[0] == []
    requires 0 in Leaves(t) && k in Leaves(t) && k != 0
    ensures b in PathBits(t, []) && Bit(keys[k], b) == 1
  {
    assert Bit(keys[0], t.bit) == 0;
    if k in Leaves(t.one) {
      b := t.bit;
    } else {
      b := PathTells(t.zero, keys, t.bit, k);
    }
  }

  lemma NulByAgreement(s: Blob, b: nat)
    requires Agree(s, [], b) && b >= CHAR_BIT
    ensures CharAt(s, 0) == 0
  {
    forall j: nat | j < CHAR_BIT
      ensures BitOf(CharAt(s, 0), j) == BitOf(0, j)
    {
      assert Bit(s, j) == Bit([], j);
    }
    BitsDetermineByte(CharAt(s, 0), 0);
  }

  /** A bit tested beyond the first byte is there for a key that begins with a NUL. */
  lemma {:induction false} PathNeeds(t: Trie, keys: seq<Blob>, lo: nat, b: nat) returns (k: nat)
    requires WellFormed(t, keys, lo) && keys != [] && keys[0] == [] && 0 in Leaves(t)
    requires b in PathBits(t, []) && b >= CHAR_BIT
    ensures 1 <= k < |keys| && CharAt(keys[k], 0) == 0 && Bit(keys[k], b) == 1
  {
    assert Bit(keys[0], t.bit) == 0;
    if b == t.bit {
      k := Find(t.one, []);
      assert k in Leaves(t) && Agree(keys[k], keys[0], b);
      hide WellFormed, Find, Leaves, PathBits;
      NulByAgreement(keys[k], b);
    } else {
      k := PathNeeds(t.zero, keys, t.bit, b);
    }
  }

  /** The walk of the empty string reads no more than its NUL. */
  ghost predicate WalkWithin(t: Trie) {
    forall b | b in PathBits(t, []) :: b > SizeMaxBit([]) || b < CHAR_BIT
  }

  lemma WithinStep(t: Trie, s: Blob)
    requires t.Branch? && (s == [] ==> WalkWithin(t))
    ensures s == [] ==> (t.bit > SizeMaxBit(s) || t.bit < CHAR_BIT) && WalkWithin(Side(t, s))
  {
    assert t.bit in PathBits(t, s) && PathBits(Side(t, s), s) <= PathBits(t, s);
  }

  lemma WithinTells(tree: seq<Node>, t: Trie, k: nat)
    requires ValidTree(tree, t) && 1 <= k < |tree| && CharAt(tree[k].s, 0) == 0
    ensures !WalkWithin(t)
  {
    NulFirst(tree[k].s);
    assert Reachable(tree[k].s) && Reachable(tree[0].s);
    var b := PathTells(t, Keys(tree), 0, k);
  }

  lemma NulFirst(s: Blob)
    requires CharAt(s, 0) == 0
    ensures forall j: nat | j < CHAR_BIT :: Bit(s, j) == 0
  {
    assert forall j: nat | j < CHAR_BIT :: BitOf(0, j) == 0;
  }

  /** It does so iff no key of the tree begins with a NUL. */
  lemma WalkWithinIff(tree: seq<Node>, t: Trie)
    requires ValidTree(tree, t)
    ensures WalkWithin(t) <==> Within(Keys(tree), [])
  {
    if !Within(Keys(tree), []) {
      var k: nat :| 1 <= k < |tree| && CharAt(tree[k].s, 0) == 0;
      WithinTells(tree, t, k);
    }
    if !WalkWithin(t) {
      assert Reachable(tree[0].s);
      var b :| b in PathBits(t, []) && b <= SizeMaxBit([]) && b >= CHAR_BIT;
      var k := PathNeeds(t, Keys(tree), 0, b);
    }
  }

  /** The guard of insert's loop over bits, which compares the key found with
      the new one, holds at every bit. */
  ghost predicate LoopsForever(n: Node, s: Blob) {
    forall i: nat ::
      && (i > n.maxbit || i / CHAR_BIT <= |n.s|)
      && (i > SizeMaxBit(s) || i / CHAR_BIT <= |s|)
      && Bits(n.s, n.maxbit, i) == Bits(s, SizeMaxBit(s), i)
  }

  lemma BothRead(key: Blob, s: Blob, i: nat)
    requires 0 < |s| < MAX_KEY_SIZE
    ensures (i > MaxBit(key) || i / CHAR_BIT <= |key|) && Bits(key, MaxBit(key), i) == Bit(key, i)
    ensures (i > SizeMaxBit(s) || i / CHAR_BIT <= |s|) && Bits(s, SizeMaxBit(s), i) == Bit(s, i)
  {
    BitsIsBit(key, i);
    KeyBits(s, i);
  }

  lemma AgreeNext(a: Blob, b: Blob, i: nat)
    requires Agree(a, b, i) && Bit(a, i) == Bit(b, i)
    ensures Agree(a, b, i + 1)
  {
    hide Bit;
  }

  lemma LoopsIff(n: Node, s: Blob)
    requires 0 < |s| < MAX_KEY_SIZE && n.maxbit == MaxBit(n.s)
    ensures LoopsForever(n, s) <==> SameBits(n.s, s)
  {
    forall i: nat
      ensures (i > n.maxbit || i / CHAR_BIT <= |n.s|) && Bits(n.s, n.maxbit, i) == Bit(n.s, i)
      ensures (i > SizeMaxBit(s) || i / CHAR_BIT <= |s|) && Bits(s, SizeMaxBit(s), i) == Bit(s, i)
    {
      BothRead(n.s, s, i);
    }
    hide Bits, Bit, MaxBit;
    if LoopsForever(n, s) {
      forall i: nat
        ensures Bit(n.s, i) == Bit(s, i)
      {
        assert Bits(n.s, n.maxbit, i) == Bits(s, SizeMaxBit(s), i);
      }
    }
  }

  /** With the key of a NUL and a 1 stored, the walk of the empty string tests
      bit 15 and so reads a byte beyond the string. */
  lemma EmptyKeyExample(tree: seq<Node>, t: Trie)
    requires ValidTree(tree, t) && Keys(tree) == [[], [0, 1]]
    ensures 15 in PathBits(t, []) && !WalkWithin(t)
  {
    assert tree[1].s == Keys(tree)[1] == [0, 1];
    WithinTells(tree, t, 1);
    assert BitOf(0, 0) == 0;
    assert Reachable(tree[1].s) && Reachable(tree[0].s);
    var b := PathTells(t, Keys(tree), 0, 1);
    BitsOfOne(b);
  }

  lemma BitsOfOne(b: nat)
    ensures Bit([0, 1], b) == 1 <==> b == 15
  {
    forall k: nat | k < CHAR_BIT
      ensures BitOf(0, k) == 0 && (BitOf(1, k) == 1 <==> k == 7)
    {
    }
  }

  class StringAtomTree {
    var tree: seq<Node>
    const limit: nat
    ghost var trie: Trie

    ghost function Table(): (t: seq<Blob>)
      reads this
      ensures |t| == |tree|
    {
      Keys(tree)
    }

    ghost predicate Valid()
      reads this
    {
      |tree| <= limit && ValidTree(tree, trie)
    }

    constructor (capacity: nat)
      ensures Valid() && Table() == [[]]
      ensures limit == if capacity == 0 then 1 else capacity
    {
      limit := if capacity == 0 then 1 else capacity;
      tree := [Node([], 0, 0, 0, 0)];
      trie := Leaf(0);
    }

    method Clear()
      requires Valid()
      modifies this
      ensures Valid() && Table() == [[]]
    {
      tree := [tree[0].(bit := 0, maxbit := 0, kid0 := 0, kid1 := 0)];
      trie := Leaf(0);
    }

    /** The trie walk decides exactly what the table search decides. */
    lemma FindIsSearch(s: Blob)
      requires Valid()
      ensures Distinct(Table())
      ensures var k := Find(trie, s);
              k < |tree| && SearchTable(Table(), s) == if tree[k].s == s then At(k) else Npos
    {
      var keys, f := Keys(tree), Find(trie, s);
      forall j, k | 0 <= j < k < |tree| && Reachable(keys[j])
        ensures keys[j] != keys[k]
      {
        if keys[j] == keys[k] {
          FindStored(trie, keys, 0, keys[j], j);
          FindStored(trie, keys, 0, keys[j], k);
          assert false;
        }
      }
      if k: nat :| k < |tree| && keys[k] == s && Reachable(s) {
        FindStored(trie, keys, 0, s, k);
        SearchFindsStored(keys, k);
      }
    }

    /** Insertion of an unknown string hangs iff the key its bits lead to has
        the same bits for ever. */
    lemma HangsSame(s: Blob)
      requires Valid() && SearchTable(Table(), s) == Npos
      ensures Hangs(Table(), s) <==> SameBits(Table()[Find(trie, s)], s)
    {
      var keys, f := Keys(tree), Find(trie, s);
      SameBitsIffSameStrip(keys[f], s);
      if Hangs(keys, s) {
        var k: nat :| k < |keys| && Strip(keys[k]) == Strip(s);
        SameBitsIffSameStrip(keys[k], s);
        assert Bit(keys[k], 0) == Bit(s, 0);
        FindStored(trie, keys, 0, s, k);
      }
    }

    /** That is, iff the guard of its loop over bits holds at every bit. */
    lemma HangsIff(s: Blob)
      requires Valid() && |s| < MAX_KEY_SIZE && SearchTable(Table(), s) == Npos
      ensures s != [] && Find(trie, s) < |tree|
      ensures Hangs(Table(), s) <==> LoopsForever(tree[Find(trie, s)], s)
    {
      hide LoopsForever, SameBits, Hangs, ValidTree, MaxBit, Strip;
      FindIsSearch(s);
      RootFound(Table());
      HangsSame(s);
      NodeMaxBit(tree, trie, Find(trie, s));
      LoopsIff(tree[Find(trie, s)], s);
    }

    /** The walk both insert and search start with. */
    method Walk(s: Blob) returns (x: nat)
      requires Valid() && |s| < MAX_KEY_SIZE && Within(Table(), s)
      ensures x == Find(trie, s) && x < |tree|
    {
      WalkWithinIff(tree, trie);
      assert 0 < |tree| && tree[0].kid0 == trie.idx < |tree| && Represents(tree, tree[0].bit, tree[0].kid0, trie);
      hide Within, ValidTree;
      var maxbit := SizeMaxBit(s);
      var p: nat := 0;
      x := tree[0].kid0;
      ghost var t := trie;
      while tree[p].bit < tree[x].bit
        invariant p < |tree| && x < |tree|
        invariant Represents(tree, tree[p].bit, x, t)
        invariant Find(t, s) == Find(trie, s) && (s == [] ==> WalkWithin(t))
        decreases t
      {
        SpliceStep(tree, p, x, t, s, 0);
        WithinStep(t, s);
        hide Represents, WalkWithin, Find;
        KeyBits(s, tree[x].bit);
        var kid := Bits(s, maxbit, tree[x].bit);
        t := Side(t, s);
        p := x;
        x := tree[x].Kid(kid);
      }
    }

    method Search(s: Blob) returns (r: Found)
      requires Valid() && |s| < MAX_KEY_SIZE && Within(Table(), s)
      ensures r == SearchTable(Table(), s)
    {
      var x := Walk(s);
      FindIsSearch(s);
      r := if s == tree[x].s then At(x) else Npos;
    }

    /** Insert's loop over bits; it ends because the two strings differ somewhere. */
    method FindFirstDifference(t: nat, s: Blob) returns (i: nat)
      requires Valid() && t < |tree| && 0 < |s| < MAX_KEY_SIZE
      requires !SameBits(tree[t].s, s)
      ensures FirstDifference(tree[t].s, s, i)
    {
      var maxbit := SizeMaxBit(s);
      var key := tree[t].s;
      NodeMaxBit(tree, trie, t);
      hide ValidTree, Bit, MaxBit;
      ghost var d: nat :| Bit(key, d) != Bit(s, d);
      i := DifferAt(key, tree[t].maxbit, s, maxbit, d);
    }

    /** The loop over bits itself. */
    static method DifferAt(key: Blob, keybit: nat, s: Blob, maxbit: nat, ghost d: nat) returns (i: nat)
      requires 0 < |s| < MAX_KEY_SIZE && maxbit == SizeMaxBit(s) && keybit == MaxBit(key)
      requires Bit(key, d) != Bit(s, d)
      ensures FirstDifference(key, s, i)
    {
      i := 0;
      assert Agree(key, s, 0);
      BothRead(key, s, i);
      hide Bits, Bit, MaxBit, SizeMaxBit, Agree;
      while Bits(key, keybit, i) == Bits(s, maxbit, i)
        invariant i <= d && Agree(key, s, i)
        invariant i > keybit || i / CHAR_BIT <= |key|
        invariant i > maxbit || i / CHAR_BIT <= |s|
        invariant Bits(key, keybit, i) == Bit(key, i) && Bits(s, maxbit, i) == Bit(s, i)
        decreases d - i
      {
        AgreeNext(key, s, i);
        i := i + 1;
        BothRead(key, s, i);
      }
    }

    /** Insert's second walk, which stops where bit i belongs. */
    method FindSplicePoint(s: Blob, i: nat) returns (p: nat, x: nat)
      requires Valid() && 0 < |s| < MAX_KEY_SIZE
      ensures p == SpliceParent(trie, s, i, 0) && p < |tree|
      ensures x == SpliceAt(trie, s, i).idx && x < |tree|
    {
      var maxbit := SizeMaxBit(s);
      p, x := 0, tree[0].kid0;
      ghost var t := trie;
      while tree[p].bit < tree[x].bit && tree[x].bit < i
        invariant p < |tree| && x < |tree|
        invariant Represents(tree, tree[p].bit, x, t)
        invariant SpliceParent(t, s, i, p) == SpliceParent(trie, s, i, 0)
        invariant SpliceAt(t, s, i) == SpliceAt(trie, s, i)
        decreases t
      {
        SpliceStep(tree, p, x, t, s, i);
        KeyBits(s, tree[x].bit);
        var kid := Bits(s, maxbit, tree[x].bit);
        t := Side(t, s);
        p := x;
        x := tree[x].Kid(kid);
      }
      SpliceStep(tree, p, x, t, s, i);
    }

    /** Push the new node and relink its parent in place. */
    method Link(s: Blob, i: nat, p: nat, x: nat) returns (t: nat)
      requires Valid() && 0 < |s| < MAX_KEY_SIZE && |tree| < limit
      requires FirstDifference(tree[Find(trie, s)].s, s, i)
      requires p == SpliceParent(trie, s, i, 0) && p < |tree|
      requires x == SpliceAt(trie, s, i).idx
      modifies this
      ensures Valid() && Table() == old(Table()) + [s] && t == |old(tree)|
    {
      var maxbit := SizeMaxBit(s);
      KeyBits(s, i);
      KeyBits(s, tree[p].bit);
      hide ValidTree, SpliceParent, SpliceAt, FirstDifference, Find, Bits, Bit, MaxBit, SizeMaxBit;
      var ibit := Bits(s, maxbit, i);
      t := |tree|;
      ghost var before := tree;
      tree := tree + [Node(s, i, maxbit, if ibit != 0 then x else t, if ibit != 0 then t else x)];
      tree := tree[p := tree[p].WithKid(Bits(s, maxbit, tree[p].bit), t)];
      assert Linked(before, tree, p, s, i, x);
      assert tree[t].s == s && tree[t].maxbit == maxbit;
      hide Linked;
      LinkKeepsValid(before, tree, trie, s, i);
      trie := TrieAfter(trie, s, i, t);
    }

    method Insert(s: Blob) returns (t: nat)
      requires Valid() && Insertable(Table(), s)
      requires SearchTable(Table(), s).Npos? ==> |tree| < limit
      modifies this
      ensures Valid()
      ensures Table() == InsertTable(old(Table()), s)
      ensures t == InsertIndex(old(Table()), s)
    {
      t := Walk(s);
      FindIsSearch(s);
      if s == tree[t].s {
        return;
      }
      HangsIff(s);
      HangsSame(s);
      hide ValidTree, Hangs, LoopsForever, SameBits, FirstDifference, Within, Distinct;
      var i := FindFirstDifference(t, s);
      var p, x := FindSplicePoint(s, i);
      t := Link(s, i, p, x);
    }

    /** The key at an index: key(insert(s)) is s, and no later insert changes it. */
    method Key(index: nat) returns (s: Blob)
      requires Valid() && index < |tree|
      ensures s == Table()[index]
    {
      s := tree[index].s;
    }
  }

  lemma ValidSeparated(tree: seq<Node>, t: Trie)
    requires ValidTree(tree, t)
    ensures Separated(Keys(tree))
  {
    var keys := Keys(tree);
    forall j, k | 0 <= j < k < |tree|
      ensures Reachable(keys[k]) ==> Strip(keys[j]) != Strip(keys[k])
      ensures Reachable(keys[j]) ==> keys[j] != keys[k]
    {
      SameBitsIffSameStrip(keys[j], keys[k]);
      if SameBits(keys[j], keys[k]) && (Reachable(keys[k]) || Reachable(keys[j])) {
        assert Bit(keys[j], 0) == Bit(keys[k], 0);
        FindStored(t, keys, 0, keys[j], j);
        FindStored(t, keys, 0, keys[j], k);
      }
    }
  }

  /** Every insertion of a run ends. */
  ghost predicate RunEnds(ss: seq<Blob>) {
    forall n | 0 <= n < |ss| :: Insertable(InsertAll([[]], ss[..n]), ss[n])
  }

  ghost predicate AreIndexes(indexes: seq<nat>, ss: seq<Blob>) {
    |indexes| <= |ss| && forall n | 0 <= n < |indexes| :: indexes[n] == AtomIndex(ss, n)
  }

  /** A client that makes atoms one after another in a new tree. */
  method MakeAtoms(tree: StringAtomTree, ss: seq<Blob>) returns (indexes: seq<nat>)
    requires tree.Valid() && tree.Table() == [[]] && |ss| < tree.limit && RunEnds(ss)
    modifies tree
    ensures tree.Valid() && tree.Table() == InsertAll([[]], ss)
    ensures |indexes| == |ss| && AreIndexes(indexes, ss)
  {
    indexes := [];
    assert InsertAll([[]], ss[..0]) == [[]];
    hide InsertAll, Insertable, ValidTree, AtomIndex;
    for n := 0 to |ss|
      invariant tree.Valid() && tree.Table() == InsertAll([[]], ss[..n])
      invariant |indexes| == n && AreIndexes(indexes, ss)
    {
      var t := MakeAtom(tree, ss, n, ss[n]);
      indexes := indexes + [t];
    }
    assert ss[..|ss|] == ss;
  }

  method MakeAtom(tree: StringAtomTree, ghost ss: seq<Blob>, ghost n: nat, s: Blob) returns (t: nat)
    requires n < |ss| < tree.limit && s == ss[n]
    requires tree.Valid() && tree.Table() == InsertAll([[]], ss[..n])
    requires Insertable(InsertAll([[]], ss[..n]), ss[n])
    modifies tree
    ensures tree.Valid() && tree.Table() == InsertAll([[]], ss[..n + 1])
    ensures t == AtomIndex(ss, n)
  {
    hide Insertable, InsertTable, ValidTree;
    RunNext(ss, n);
    InsertAllLength([[]], ss[..n]);
    hide InsertAll, InsertIndex;
    t := tree.Insert(s);
  }

  /** writeStrings of VisDQMTools.h. */
  method WriteStrings(tree: StringAtomTree, base: nat) returns (records: seq<Record>)
    requires tree.Valid() && base <= |tree.tree|
    ensures records == WrittenFrom(tree.Table(), base)
  {
    records := [];
    for i := base to |tree.tree|
      invariant |records| == i - base
      invariant records == WrittenFrom(tree.Table(), base)[..i - base]
    {
      var str := tree.Key(i);
      records := records + [Record(i, str)];
    }
  }

  /** The loop body of readStrings. */
  method ReadRecord(tree: StringAtomTree, ghost table: seq<Blob>, records: seq<Record>, n: nat) returns (ok: bool)
    requires n < |records| && tree.Valid() && |table| + n < tree.limit
    requires tree.Table() == InsertAll(table, Data(records[..n]))
    requires Readable(table, records, n)
    modifies tree
    ensures tree.Valid()
    ensures tree.Table() == InsertAll(table, Data(records[..n + 1]))
    ensures ok <==> Verified(table, records, n)
  {
    InsertNext(table, records, n);
    var t := tree.Insert(records[n].data);
    ok := t == records[n].index;
  }

  /** readStrings of VisDQMTools.h; ok is false where a VERIFY fails. */
  method ReadStrings(tree: StringAtomTree, records: seq<Record>) returns (ok: bool)
    requires tree.Valid() && |tree.tree| + |records| <= tree.limit
    requires forall n | 0 <= n < |records| :: Readable(tree.Table(), records, n)
    modifies tree
    ensures tree.Valid()
    ensures ok <==> forall n | 0 <= n < |records| :: Verified(old(tree.Table()), records, n)
    ensures ok ==> tree.Table() == InsertAll(old(tree.Table()), Data(records))
  {
    ghost var table := tree.Table();
    for n := 0 to |records|
      invariant tree.Valid()
      invariant tree.Table() == InsertAll(table, Data(records[..n]))
      invariant VerifiedUpTo(table, records, n)
    {
      ok := ReadRecord(tree, table, records, n);
      if !ok {
        VerifiedUpToEach(table, records, |records|);
        return;
      }
    }
    assert records[..|records|] == records;
    VerifiedUpToEach(table, records, |records|);
    ok := true;
  }

  /** Whatever a tree holds, what is written of it can be read back. */
  method WriteAndRead(a: StringAtomTree, b: StringAtomTree, base: nat) returns (ok: bool)
    requires a.Valid() && b.Valid() && a != b && 1 <= base <= |a.tree|
    requires b.Table() == a.Table()[..base] && |a.tree| <= b.limit
    modifies b
    ensures b.Valid() && ok && b.Table() == a.Table()
  {
    ValidSeparated(a.tree, a.trie);
    ReadBack(a.Table(), base);
    hide ValidTree, Separated, Readable, Verified, InsertAll;
    var records := WriteStrings(a, base);
    ok := ReadStrings(b, records);
  }
}
