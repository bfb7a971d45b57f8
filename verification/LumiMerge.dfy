/** Merging the copies of histograms that streams and modules fill into one
    global copy per luminosity section (DQMStore::
    mergeAndResetMEsLuminositySummaryCache). */
module LumiMerges {
  import opened Options

  // ----- the order of the set of monitor elements

  datatype Key = Key(run: nat, lumi: nat, stream: nat, mod: nat, dir: string, name: string)

  predicate StringLess(a: string, b: string) {
    b != "" && (a == "" || a[0] < b[0] || (a[0] == b[0] && StringLess(a[1..], b[1..])))
  }

  /** setOrder */
  predicate Before(a: Key, b: Key) {
    if a.run != b.run then a.run < b.run
    else if a.lumi != b.lumi then a.lumi < b.lumi
    else if a.stream != b.stream then a.stream < b.stream
    else if a.mod != b.mod then a.mod < b.mod
    else if a.dir != b.dir then StringLess(a.dir, b.dir)
    else StringLess(a.name, b.name)
  }

  lemma {:induction false} StringOrder(a: string, b: string)
    ensures !(StringLess(a, b) && StringLess(b, a)) && (a == b <==> !StringLess(a, b) && !StringLess(b, a))
  {
    if a != "" && b != "" {
      StringOrder(a[1..], b[1..]);
      assert a == [a[0]] + a[1..] && b == [b[0]] + b[1..];
    }
  }

  lemma {:induction false} StringTransitive(a: string, b: string, c: string)
    requires StringLess(a, b) && StringLess(b, c)
    ensures StringLess(a, c)
  {
    if a != "" && a[0] == b[0] == c[0] {
      StringTransitive(a[1..], b[1..], c[1..]);
    }
  }

  /** setOrder is a strict total order. */
  lemma OrderTotal(a: Key, b: Key)
    ensures !(Before(a, b) && Before(b, a)) && (a == b <==> !Before(a, b) && !Before(b, a))
  {
    StringOrder(a.dir, b.dir);
    StringOrder(a.name, b.name);
  }

  lemma OrderTransitive(a: Key, b: Key, c: Key)
    requires Before(a, b) && Before(b, c)
    ensures Before(a, c)
  {
    StringOrder(a.dir, b.dir);
    StringOrder(b.dir, c.dir);
    if a.dir == b.dir == c.dir && StringLess(a.name, b.name) && StringLess(b.name, c.name) {
      StringTransitive(a.name, b.name, c.name);
    }
    if StringLess(a.dir, b.dir) && StringLess(b.dir, c.dir) {
      StringTransitive(a.dir, b.dir, c.dir);
      StringOrder(a.dir, c.dir);
    }
  }

  /** Where the two strings part, the first one ends or has the smaller character. */
  predicate PartsLess(a: string, b: string, k: nat) {
    k <= |a| && k < |b| && a[..k] == b[..k] && (k == |a| || a[k] < b[k])
  }

  lemma {:induction false} StringLessIff(a: string, b: string)
    ensures StringLess(a, b) <==> exists k: nat :: PartsLess(a, b, k)
  {
    if a != "" && b != "" && a[0] == b[0] {
      StringLessIff(a[1..], b[1..]);
      forall k: nat
        ensures PartsLess(a, b, k + 1) <==> PartsLess(a[1..], b[1..], k)
      {
        if k < |a| && k + 1 < |b| {
          assert a[..k + 1] == [a[0]] + a[1..][..k] && b[..k + 1] == [b[0]] + b[1..][..k];
        }
      }
      if StringLess(a, b) {
        var k: nat :| PartsLess(a[1..], b[1..], k);
        assert PartsLess(a, b, k + 1);
      }
      if k: nat :| PartsLess(a, b, k) {
        assert k > 0;
        assert PartsLess(a, b, (k - 1) + 1);
        assert PartsLess(a[1..], b[1..], k - 1);
      }
    } else {
      assert PartsLess(a, b, 0) <==> b != "" && (a == "" || a[0] < b[0]);
      assert forall k: nat | k > 0 && PartsLess(a, b, k) :: a[..k][0] == b[..k][0];
    }
  }

  /** The numbers of a key in the order in which they count. */
  predicate NumbersLess(a: Key, b: Key) {
    var s, t := [a.run, a.lumi, a.stream, a.mod], [b.run, b.lumi, b.stream, b.mod];
    exists i | 0 <= i < 4 :: s[..i] == t[..i] && s[i] < t[i]
  }

  /** Elements are ordered by run, lumi, stream and module, then by directory and
      then by name, strings like words in a dictionary. */
  lemma BeforeIff(a: Key, b: Key)
    ensures Before(a, b) <==>
            || NumbersLess(a, b)
            || (b.(dir := a.dir, name := a.name) == a &&
                if a.dir == b.dir then exists k: nat :: PartsLess(a.name, b.name, k)
                else exists k: nat :: PartsLess(a.dir, b.dir, k))
  {
    StringLessIff(a.dir, b.dir);
    StringLessIff(a.name, b.name);
    NumbersLessIs(a, b);
    hide StringLess, NumbersLess, PartsLess;
  }

  lemma NumbersLessIs(a: Key, b: Key)
    ensures NumbersLess(a, b) <==>
      if a.run != b.run then a.run < b.run
      else if a.lumi != b.lumi then a.lumi < b.lumi
      else if a.stream != b.stream then a.stream < b.stream
      else a.mod < b.mod
  {
    var s, t := [a.run, a.lumi, a.stream, a.mod], [b.run, b.lumi, b.stream, b.mod];
    forall i | 0 <= i < 4
      ensures s[..i] == t[..i] <==> forall j | 0 <= j < i :: s[j] == t[j]
    {
      assert forall j | 0 <= j < i :: s[..i][j] == s[j] && t[..i][j] == t[j];
    }
    assert (s[..0] == t[..0] && s[0] < t[0]) <==> a.run < b.run;
    assert (s[..1] == t[..1] && s[1] < t[1]) <==> a.run == b.run && a.lumi < b.lumi;
    assert (s[..2] == t[..2] && s[2] < t[2]) <==> a.run == b.run && a.lumi == b.lumi && a.stream < b.stream;
    assert (s[..3] == t[..3] && s[3] < t[3]) <==>
           a.run == b.run && a.lumi == b.lumi && a.stream == b.stream && a.mod < b.mod;
  }

  // ----- elements

  /** A scalar's value or a histogram's bins. */
  datatype Content = Number(value: real) | Text(text: string) | Hist(bins: seq<real>)

  datatype Element = Element(lumiFlag: bool, content: Content)

  type Store = map<Key, Element>

  /** TH1::Add; scalars and histograms of another shape stay as they are. */
  function Added(a: Content, b: Content): Content {
    if a.Hist? && b.Hist? && |a.bins| == |b.bins| then
      Hist(seq(|a.bins|, i requires 0 <= i < |a.bins| => a.bins[i] + b.bins[i]))
    else a
  }

  /** Reset() */
  function Cleared(c: Content): Content {
    match c
    case Number(_) => Number(0.0)
    case Text(_) => Text("")
    case Hist(bins) => Hist(seq(|bins|, i => 0.0))
  }

  function Plus(a: Element, b: Element): Element {
    a.(content := Added(a.content, b.content))
  }

  function Reset(e: Element): Element {
    e.(content := Cleared(e.content))
  }

  // ----- the merge

  /** The arguments of a merge. */
  datatype Merge = Merge(run: nat, lumi: nat, stream: nat, mod: nat)

  /** The global copy for a luminosity section: globalize() and setLumi(). */
  function Target(k: Key, lumi: nat): Key {
    k.(lumi := lumi, stream := 0, mod := 0)
  }

  /** The test that ends the scan; it does not look at the lumi. */
  predicate Local(k: Key, q: Merge) {
    k.run == q.run && k.stream == q.stream && k.mod == q.mod
  }

  /** Elements that are merged per luminosity section. */
  predicate PerLumi(e: Element, lsBased: bool) {
    e.lumiFlag || lsBased
  }

  /** One turn of the scan: add the element to its global copy, or clone it if
      there is none, and reset it. */
  function Visit(data: Store, k: Key, lumi: nat): Store
    requires k in data
  {
    var g := Target(k, lumi);
    var merged := data[g := if g in data then Plus(data[g], data[k]) else data[k]];
    merged[k := Reset(merged[k])]
  }

  // ----- iterators

  ghost predicate IsLeast(s: set<Key>, k: Key) {
    k in s && forall j | j in s :: !Before(j, k)
  }

  lemma LeastOfTwo(s: set<Key>, x: Key, k: Key)
    requires x in s && IsLeast(s - {x}, k)
    ensures IsLeast(s, if Before(x, k) then x else k)
  {
    hide Before;
    OrderTotal(x, x);
    OrderTotal(x, k);
    if Before(x, k) {
      forall j | j in s
        ensures !Before(j, x)
      {
        if Before(j, x) {
          OrderTransitive(j, x, k);
        }
      }
    }
  }

  /** i is the least key of s outside rest, if there is one. */
  ghost predicate LeastSoFar(s: set<Key>, rest: set<Key>, i: Option<Key>) {
    rest <= s && (i.None? <==> rest == s) && (i.Some? ==> IsLeast(s - rest, i.value))
  }

  lemma LeastGrows(s: set<Key>, rest: set<Key>, i: Option<Key>, k: Key)
    requires LeastSoFar(s, rest, i) && k in rest
    ensures LeastSoFar(s, rest - {k}, Some(if i.None? || Before(k, i.value) then k else i.value))
  {
    hide Before;
    OrderTotal(k, k);
    var seen := s - (rest - {k});
    assert seen - {k} == s - rest;
    if i.Some? {
      LeastOfTwo(seen, k, i.value);
    }
  }

  lemma {:induction false} LeastExists(s: set<Key>)
    requires s != {}
    ensures exists k :: IsLeast(s, k)
  {
    hide Before;
    var x :| x in s;
    if s == {x} {
      OrderTotal(x, x);
      assert IsLeast(s, x);
    } else {
      LeastExists(s - {x});
      hide IsLeast;
      var k :| IsLeast(s - {x}, k);
      LeastOfTwo(s, x, k);
    }
  }

  ghost function Least(s: set<Key>): (r: Option<Key>)
    ensures r.Some? <==> s != {}
    ensures r.Some? ==> IsLeast(s, r.value)
  {
    if s == {} then None
    else
      LeastExists(s);
      var k :| IsLeast(s, k);
      Some(k)
  }

  lemma LeastIs(s: set<Key>, k: Key)
    requires IsLeast(s, k)
    ensures Least(s) == Some(k)
  {
    OrderTotal(k, Least(s).value);
  }

  lemma LeastFound(s: set<Key>, i: Option<Key>)
    requires LeastSoFar(s, {}, i)
    ensures i == Least(s)
  {
    assert s - {} == s;
    if i.Some? {
      LeastIs(s, i.value);
    }
  }

  /** lower_bound() */
  ghost function From(keys: set<Key>, lo: Key): Option<Key> {
    Least(set k | k in keys && !Before(k, lo))
  }

  /** The increment of an iterator at k. */
  ghost function After(keys: set<Key>, k: Key): Option<Key> {
    Least(set j | j in keys && Before(k, j))
  }

  // ----- the scan

  /** All keys that a merge into lumi can ever hold. */
  ghost function Universe(data: Store, lumi: nat): set<Key> {
    data.Keys + set k | k in data.Keys :: Target(k, lumi)
  }

  ghost function Ahead(data: Store, i: Option<Key>, lumi: nat): set<Key> {
    if i.None? then {} else set k | k in Universe(data, lumi) && !Before(k, i.value)
  }

  lemma VisitUniverse(data: Store, k: Key, lumi: nat)
    requires k in data
    ensures Universe(Visit(data, k, lumi), lumi) == Universe(data, lumi)
  {
    var d, g := Visit(data, k, lumi), Target(k, lumi);
    assert d.Keys == data.Keys + {g};
    assert Target(g, lumi) == g;
    assert g in Universe(data, lumi);
  }

  lemma AheadShrinks(data: Store, d: Store, i: Key, lumi: nat)
    requires i in data && Universe(d, lumi) == Universe(data, lumi)
    ensures |Ahead(d, After(d.Keys, i), lumi)| < |Ahead(data, Some(i), lumi)|
  {
    var j := After(d.Keys, i);
    var a, b := Ahead(d, j, lumi), Ahead(data, Some(i), lumi);
    OrderTotal(i, i);
    assert i in b;
    assert a <= b - {i} by {
      forall k | k in a
        ensures k in b && k != i
      {
        OrderTotal(i, j.value);
        if Before(k, i) {
          OrderTransitive(k, i, j.value);
        }
      }
    }
    Smaller(a, b - {i});
  }

  lemma {:induction false} Smaller(a: set<Key>, b: set<Key>)
    requires a <= b
    ensures |a| <= |b|
  {
    if a != {} {
      var x :| x in a;
      Smaller(a - {x}, b - {x});
    }
  }

  /** The scan from iterator i on, while it inserts into the set it scans. */
  ghost function Scan(data: Store, i: Option<Key>, q: Merge, lsBased: bool): Store
    requires i.Some? ==> i.value in data
    decreases |Ahead(data, i, q.lumi)|
  {
    if i.None? || !Local(i.value, q) then data
    else
      var d := if PerLumi(data[i.value], lsBased) then Visit(data, i.value, q.lumi) else data;
      VisitUniverse(data, i.value, q.lumi);
      AheadShrinks(data, d, i.value, q.lumi);
      Scan(d, After(d.Keys, i.value), q, lsBased)
  }

  function Proto(q: Merge): Key {
    Key(q.run, 0, q.stream, q.mod, "", "")
  }

  ghost function Merged(data: Store, q: Merge, lsBased: bool): Store {
    Scan(data, From(data.Keys, Proto(q)), q, lsBased)
  }

  // ----- conservation

  /** One bin of a histogram in a run, whichever copy it is filled in. */
  datatype Cell = Cell(run: nat, dir: string, name: string, bin: nat)

  predicate In(k: Key, c: Cell) {
    k.run == c.run && k.dir == c.dir && k.name == c.name
  }

  function BinOf(e: Element, bin: nat): real {
    if e.content.Hist? && bin < |e.content.bins| then e.content.bins[bin] else 0.0
  }

  ghost function SumOver(data: Store, ks: set<Key>, bin: nat): real
    requires ks <= data.Keys
  {
    if ks == {} then 0.0
    else
      var k :| k in ks;
      BinOf(data[k], bin) + SumOver(data, ks - {k}, bin)
  }

  lemma {:induction false} SumTake(data: Store, ks: set<Key>, k: Key, bin: nat)
    requires k in ks && ks <= data.Keys
    ensures SumOver(data, ks, bin) == BinOf(data[k], bin) + SumOver(data, ks - {k}, bin)
  {
    hide BinOf;
    var j :| j in ks && SumOver(data, ks, bin) == BinOf(data[j], bin) + SumOver(data, ks - {j}, bin);
    if j != k {
      SumTake(data, ks - {j}, k, bin);
      SumTake(data, ks - {k}, j, bin);
      assert ks - {j} - {k} == ks - {k} - {j};
    }
  }

  lemma {:induction false} SumSame(a: Store, b: Store, ks: set<Key>, bin: nat)
    requires ks <= a.Keys && ks <= b.Keys && forall k | k in ks :: a[k] == b[k]
    ensures SumOver(a, ks, bin) == SumOver(b, ks, bin)
  {
    if ks != {} {
      var k :| k in ks;
      SumTake(a, ks, k, bin);
      SumTake(b, ks, k, bin);
      SumSame(a, b, ks - {k}, bin);
    }
  }

  ghost function Copies(data: Store, c: Cell): set<Key> {
    set k | k in data && In(k, c)
  }

  /** A bin summed over all copies: those of the streams and modules and the
      global ones of all luminosity sections. */
  ghost function Total(data: Store, c: Cell): real {
    SumOver(data, Copies(data, c), c.bin)
  }

  predicate SameShape(a: Content, b: Content) {
    a.Hist? == b.Hist? && (a.Hist? ==> |a.bins| == |b.bins|)
  }

  /** The copies of an element are booked alike. */
  ghost predicate Consistent(data: Store) {
    forall j, k | j in data && k in data && j.run == k.run && j.dir == k.dir && j.name == k.name ::
      SameShape(data[j].content, data[k].content)
  }

  /** Replacing one element changes the total by the change of its bin. */
  lemma TotalUpdate(data: Store, k: Key, e: Element, c: Cell)
    ensures var before := if k in data then BinOf(data[k], c.bin) else 0.0;
      Total(data[k := e], c) == Total(data, c) + if In(k, c) then BinOf(e, c.bin) - before else 0.0
  {
    hide BinOf;
    var d := data[k := e];
    if In(k, c) {
      var rest := Copies(data, c) - {k};
      assert Copies(d, c) - {k} == rest;
      SumTake(d, Copies(d, c), k, c.bin);
      SumSame(data, d, rest, c.bin);
      if k in data {
        SumTake(data, Copies(data, c), k, c.bin);
      } else {
        assert Copies(data, c) == rest;
      }
    } else {
      assert Copies(d, c) == Copies(data, c);
      SumSame(data, d, Copies(data, c), c.bin);
    }
  }

  lemma BinPlus(a: Element, b: Element, bin: nat)
    requires SameShape(a.content, b.content)
    ensures BinOf(Plus(a, b), bin) == BinOf(a, bin) + BinOf(b, bin) && BinOf(Reset(a), bin) == 0.0
  {
  }

  /** A turn of the scan moves the bins and loses none, unless the element is
      its own target. */
  lemma VisitConserves(data: Store, k: Key, lumi: nat, c: Cell)
    requires k in data && Consistent(data) && Target(k, lumi) != k
    ensures Total(Visit(data, k, lumi), c) == Total(data, c)
  {
    var g := Target(k, lumi);
    var e := if g in data then Plus(data[g], data[k]) else data[k];
    TotalUpdate(data, g, e, c);
    TotalUpdate(data[g := e], k, Reset(data[k]), c);
    BinPlus(data[k], data[k], c.bin);
    if g in data {
      BinPlus(data[g], data[k], c.bin);
    }
    hide Total, BinOf, Plus, Reset, Consistent;
  }

  lemma VisitConsistent(data: Store, k: Key, lumi: nat)
    requires k in data && Consistent(data)
    ensures Consistent(Visit(data, k, lumi))
  {
    var d, g := Visit(data, k, lumi), Target(k, lumi);
    forall j | j in d
      ensures var o := if j in data then j else k;
        SameShape(d[j].content, data[o].content) && Target(o, lumi) == Target(j, lumi)
    {
    }
    hide Visit;
    forall i, j | i in d && j in d && i.run == j.run && i.dir == j.dir && i.name == j.name
      ensures SameShape(d[i].content, d[j].content)
    {
      var a, b := if i in data then i else k, if j in data then j else k;
      assert Target(a, lumi) == Target(b, lumi);
      assert SameShape(data[a].content, data[b].content);
    }
  }

  lemma {:induction false} ScanConserves(data: Store, i: Option<Key>, q: Merge, lsBased: bool, c: Cell)
    requires (i.Some? ==> i.value in data) && Consistent(data) && (q.stream, q.mod) != (0, 0)
    ensures Consistent(Scan(data, i, q, lsBased)) && Total(Scan(data, i, q, lsBased), c) == Total(data, c)
    decreases |Ahead(data, i, q.lumi)|
  {
    hide Total, Consistent;
    if i.Some? && Local(i.value, q) {
      var d := if PerLumi(data[i.value], lsBased) then Visit(data, i.value, q.lumi) else data;
      VisitUniverse(data, i.value, q.lumi);
      AheadShrinks(data, d, i.value, q.lumi);
      if PerLumi(data[i.value], lsBased) {
        VisitConserves(data, i.value, q.lumi, c);
        VisitConsistent(data, i.value, q.lumi);
      }
      ScanConserves(d, After(d.Keys, i.value), q, lsBased, c);
    }
  }

  /** A merge for stream 0 and module 0 takes a global copy for a local one:
      it doubles the copy and then resets it. */
  lemma GlobalIsLost(q: Merge, lsBased: bool)
    requires (q.stream, q.mod) == (0, 0)
    ensures var k := Key(q.run, q.lumi, 0, 0, "", "h");
      var data := map[k := Element(true, Hist([1.0]))];
      Merged(data, q, lsBased) == map[k := Element(true, Hist([0.0]))]
  {
    var k := Key(q.run, q.lumi, 0, 0, "", "h");
    var data := map[k := Element(true, Hist([1.0]))];
    assert (set j | j in data.Keys && !Before(j, Proto(q))) == {k};
    OrderTotal(k, k);
    LeastIs({k}, k);
    var d := Visit(data, k, q.lumi);
    assert Cleared(Added(Hist([1.0]), Hist([1.0]))) == Hist([0.0]);
    assert d == map[k := Element(true, Hist([0.0]))];
    assert (set j | j in d.Keys && Before(k, j)) == {};
    assert Scan(d, None, q, lsBased) == d;
  }

  /** A merge conserves every bin, whatever has been booked, exactly if it is
      not for stream 0 and module 0. */
  lemma MergeConservesIff(q: Merge, lsBased: bool)
    ensures (forall data, c | Consistent(data) :: Total(Merged(data, q, lsBased), c) == Total(data, c))
            <==> (q.stream, q.mod) != (0, 0)
  {
    hide Scan;
    if (q.stream, q.mod) != (0, 0) {
      forall data, c | Consistent(data)
        ensures Total(Merged(data, q, lsBased), c) == Total(data, c)
      {
        hide Total, Consistent;
        ScanConserves(data, From(data.Keys, Proto(q)), q, lsBased, c);
      }
    } else {
      var k := Key(q.run, q.lumi, 0, 0, "", "h");
      var data := map[k := Element(true, Hist([1.0]))];
      GlobalIsLost(q, lsBased);
      hide Merged;
      var c := Cell(q.run, "", "h", 0);
      TotalUpdate(map[], k, data[k], c);
      TotalUpdate(map[], k, Element(true, Hist([0.0])), c);
      assert data == map[][k := data[k]];
      assert Merged(data, q, lsBased) == map[][k := Element(true, Hist([0.0]))];
      hide Total;
      assert Consistent(data);
    }
  }

  // ----- what a merge does, without the scan

  /** Elements of streams and modules are booked without a lumi. */
  ghost predicate Booked(data: Store) {
    forall k | k in data && (k.stream, k.mod) != (0, 0) :: k.lumi == 0
  }

  /** The local copies a merge is to take, from iterator i on. */
  ghost function Selected(data: Store, i: Option<Key>, q: Merge, lsBased: bool): set<Key> {
    if i.None? then {}
    else set k | k in data && Local(k, q) && PerLumi(data[k], lsBased) && !Before(k, i.value)
  }

  /** The local copy that is merged into a global one. */
  function Source(k: Key, q: Merge): Key {
    Key(q.run, 0, q.stream, q.mod, k.dir, k.name)
  }

  ghost predicate Locals(data: Store, ks: set<Key>, q: Merge) {
    forall k | k in ks :: k in data && k == Source(k, q)
  }

  /** The local copies in ks are reset, each is added to its global copy or
      becomes one, and nothing else changes. */
  ghost function MovedTo(data: Store, ks: set<Key>, q: Merge): Store
    requires Locals(data, ks, q)
  {
    map k | k in data.Keys + set s | s in ks :: Target(s, q.lumi) ::
      if k in ks then Reset(data[k])
      else
        var s := Source(k, q);
        if s in ks && k == Target(s, q.lumi) then if k in data then Plus(data[k], data[s]) else data[s]
        else data[k]
  }

  lemma LocalsAfter(data: Store, k: Key, ks: set<Key>, q: Merge)
    requires k in ks && Locals(data, ks, q)
    ensures Locals(Visit(data, k, q.lumi), ks - {k}, q)
  {
    hide Plus, Reset;
  }

  lemma VisitMoves(data: Store, k: Key, ks: set<Key>, q: Merge)
    requires (q.stream, q.mod) != (0, 0) && k in ks && Locals(data, ks, q)
    ensures var d := Visit(data, k, q.lumi);
      Locals(d, ks - {k}, q) && MovedTo(d, ks - {k}, q) == MovedTo(data, ks, q)
  {
    hide Plus, Reset;
    var d, g := Visit(data, k, q.lumi), Target(k, q.lumi);
    LocalsAfter(data, k, ks, q);
    TargetsApart(data, ks, q);
    var a, b := MovedTo(d, ks - {k}, q), MovedTo(data, ks, q);
    assert a.Keys == b.Keys;
    forall j | j in b
      ensures a[j] == b[j]
    {
      if j != k && j != g {
        assert j in d <==> j in data;
        assert Source(j, q) == k ==> j != Target(k, q.lumi);
      }
    }
  }

  lemma TargetsApart(data: Store, ks: set<Key>, q: Merge)
    requires (q.stream, q.mod) != (0, 0) && Locals(data, ks, q)
    ensures forall s | s in ks :: s in data && s == Source(s, q)
    ensures forall s | s in ks :: Target(s, q.lumi) !in ks && Source(Target(s, q.lumi), q) == s
  {
  }

  /** A key between the start of the scan and a local copy is of a local copy,
      so the scan does not stop before the last one. */
  lemma Between(q: Merge, i: Key, k: Key)
    requires !Before(i, Proto(q)) && !Before(k, i) && k == Source(k, q)
    ensures Local(i, q)
  {
  }

  lemma SelectedNext(data: Store, d: Store, i: Key, q: Merge, lsBased: bool)
    requires i in data && Local(i, q) && (q.stream, q.mod) != (0, 0)
    requires d == if PerLumi(data[i], lsBased) then Visit(data, i, q.lumi) else data
    ensures Selected(d, After(d.Keys, i), q, lsBased) == Selected(data, Some(i), q, lsBased) - {i}
  {
    var j := After(d.Keys, i);
    assert forall k | k in d && Local(k, q) :: k in data && d[k].lumiFlag == data[k].lumiFlag;
    assert forall k | k in data :: k in d;
    hide Visit;
    var later := set k | k in d.Keys && Before(i, k);
    forall k | k in data && Local(k, q) && PerLumi(data[k], lsBased)
      ensures !Before(k, i) && k != i <==> j.Some? && !Before(k, j.value)
    {
      OrderTotal(i, k);
      if j.Some? {
        assert j.value in later;
        if !Before(k, j.value) && !Before(i, k) {
          OrderTotal(k, j.value);
          if Before(k, i) {
            OrderTransitive(k, i, j.value);
          }
        }
      }
      if k != i && !Before(k, i) {
        assert k in later;
      }
    }
  }

  lemma {:induction false} ScanMoves(data: Store, i: Option<Key>, q: Merge, lsBased: bool)
    requires (i.Some? ==> i.value in data && !Before(i.value, Proto(q))) && (q.stream, q.mod) != (0, 0)
    requires Booked(data)
    ensures Locals(data, Selected(data, i, q, lsBased), q)
    ensures Scan(data, i, q, lsBased) == MovedTo(data, Selected(data, i, q, lsBased), q)
    decreases |Ahead(data, i, q.lumi)|
  {
    var ks := Selected(data, i, q, lsBased);
    assert Locals(data, ks, q);
    if i.None? || !Local(i.value, q) {
      forall k | k in ks
        ensures false
      {
        Between(q, i.value, k);
      }
      assert MovedTo(data, ks, q) == data;
    } else {
      var d := if PerLumi(data[i.value], lsBased) then Visit(data, i.value, q.lumi) else data;
      var j := After(d.Keys, i.value);
      VisitUniverse(data, i.value, q.lumi);
      AheadShrinks(data, d, i.value, q.lumi);
      AfterProto(d.Keys, i.value, q);
      assert Booked(d);
      ScanMoves(d, j, q, lsBased);
      SelectedNext(data, d, i.value, q, lsBased);
      OrderTotal(i.value, i.value);
      assert PerLumi(data[i.value], lsBased) <==> i.value in ks;
      hide MovedTo, Selected, Locals, Visit, Booked, Before, After;
      if PerLumi(data[i.value], lsBased) {
        VisitMoves(data, i.value, ks, q);
      } else {
        assert ks - {i.value} == ks;
      }
    }
  }

  lemma AfterProto(keys: set<Key>, i: Key, q: Merge)
    requires !Before(i, Proto(q))
    ensures var j := After(keys, i); j.Some? ==> !Before(j.value, Proto(q))
  {
    var j := After(keys, i);
    if j.Some? {
      assert Before(i, j.value);
      if Before(j.value, Proto(q)) {
        OrderTransitive(i, j.value, Proto(q));
      }
    }
  }

  /** A merge takes every local copy of its stream and module exactly once,
      although it inserts into the set that it scans. */
  lemma MergeMovesEachOnce(data: Store, q: Merge, lsBased: bool)
    requires Booked(data) && (q.stream, q.mod) != (0, 0)
    ensures var ks := set k | k in data && Local(k, q) && PerLumi(data[k], lsBased);
      Locals(data, ks, q) && Merged(data, q, lsBased) == MovedTo(data, ks, q)
  {
    var i := From(data.Keys, Proto(q));
    var ks := set k | k in data && Local(k, q) && PerLumi(data[k], lsBased);
    var range := set k | k in data.Keys && !Before(k, Proto(q));
    assert Selected(data, i, q, lsBased) == ks by {
      forall k | k in ks
        ensures i.Some? && !Before(k, i.value)
      {
        assert !Before(k, Proto(q));
        assert k in range;
      }
    }
    assert i.Some? ==> i.value in range;
    ScanMoves(data, i, q, lsBased);
  }

  /** What a merge for a stream or module does to one element, with the keys and
      the bins written out: the global copy for the lumi gets the bins of the
      local copy added, or is a clone of it, and the local copy is emptied. */
  lemma MergeWritten(data: Store, q: Merge, lsBased: bool, dir: string, name: string)
    requires Booked(data) && (q.stream, q.mod) != (0, 0)
    ensures var k, g := Key(q.run, 0, q.stream, q.mod, dir, name), Key(q.run, q.lumi, 0, 0, dir, name);
      var r := Merged(data, q, lsBased);
      if k in data && (data[k].lumiFlag || lsBased) then
        && g in r && k in r
        && (g !in data ==> r[g] == data[k])
        && (g in data && data[g].content.Hist? && data[k].content.Hist?
            && |data[g].content.bins| == |data[k].content.bins| ==>
              && r[g].lumiFlag == data[g].lumiFlag
              && r[g].content.Hist? && |r[g].content.bins| == |data[g].content.bins|
              && forall i | 0 <= i < |r[g].content.bins| ::
                   r[g].content.bins[i] == data[g].content.bins[i] + data[k].content.bins[i])
        && (g in data && !(data[g].content.Hist? && data[k].content.Hist?) ==> r[g] == data[g])
        && r[k].lumiFlag == data[k].lumiFlag
        && (data[k].content.Number? ==> r[k].content == Number(0.0))
        && (data[k].content.Text? ==> r[k].content == Text(""))
        && (data[k].content.Hist? ==>
              && r[k].content.Hist? && |r[k].content.bins| == |data[k].content.bins|
              && forall i | 0 <= i < |r[k].content.bins| :: r[k].content.bins[i] == 0.0)
      else
        && (g in r <==> g in data) && (g in data ==> r[g] == data[g])
        && (k in r <==> k in data) && (k in data ==> r[k] == data[k])
  {
    hide Merged, Booked;
    MergeMovesEachOnce(data, q, lsBased);
    var k, g := Key(q.run, 0, q.stream, q.mod, dir, name), Key(q.run, q.lumi, 0, 0, dir, name);
    assert Target(k, q.lumi) == g && Source(k, q) == k && Source(g, q) == k;
  }

  /** A merge changes nothing but local copies of its stream and module and
      global copies for its lumi. */
  lemma MergeElsewhere(data: Store, q: Merge, lsBased: bool, j: Key)
    requires Booked(data) && (q.stream, q.mod) != (0, 0)
    requires j != Key(q.run, 0, q.stream, q.mod, j.dir, j.name) && j != Key(q.run, q.lumi, 0, 0, j.dir, j.name)
    ensures var r := Merged(data, q, lsBased); (j in r <==> j in data) && (j in data ==> r[j] == data[j])
  {
    hide Merged, Booked;
    MergeMovesEachOnce(data, q, lsBased);
  }

  // ----- runs

  datatype Op =
    | Book(key: Key, element: Element)
    | Fill(key: Key, bin: nat, weight: real)
    | MergeLumi(q: Merge)

  /** New elements are empty, shaped like the other copies and, in a stream or
      a module, without a lumi; merges are for the copies of a stream or a
      module. */
  ghost predicate Allowed(data: Store, op: Op) {
    match op
    case Book(k, e) =>
      k !in data && Reset(e) == e && Consistent(data[k := e]) && ((k.stream, k.mod) != (0, 0) ==> k.lumi == 0)
    case Fill(k, bin, _) => k in data && data[k].content.Hist? && bin < |data[k].content.bins|
    case MergeLumi(q) => (q.stream, q.mod) != (0, 0)
  }

  function Filled(e: Element, bin: nat, weight: real): Element
    requires e.content.Hist? && bin < |e.content.bins|
  {
    e.(content := Hist(e.content.bins[bin := e.content.bins[bin] + weight]))
  }

  ghost function Step(data: Store, op: Op, lsBased: bool): Store
    requires Allowed(data, op)
  {
    match op
    case Book(k, e) => data[k := e]
    case Fill(k, bin, weight) => data[k := Filled(data[k], bin, weight)]
    case MergeLumi(q) => Merged(data, q, lsBased)
  }

  ghost predicate Valid(ops: seq<Op>, lsBased: bool)
    decreases |ops|, 0
  {
    ops == [] ||
    (Valid(ops[..|ops| - 1], lsBased) && Allowed(Run(ops[..|ops| - 1], lsBased), ops[|ops| - 1]))
  }

  ghost function Run(ops: seq<Op>, lsBased: bool): Store
    requires Valid(ops, lsBased)
    decreases |ops|, 1
  {
    if ops == [] then map[] else Step(Run(ops[..|ops| - 1], lsBased), ops[|ops| - 1], lsBased)
  }

  /** What has been filled into a cell, through whichever copy. */
  function Weight(ops: seq<Op>, c: Cell): real {
    if ops == [] then 0.0
    else
      var op := ops[|ops| - 1];
      Weight(ops[..|ops| - 1], c) + if op.Fill? && In(op.key, c) && op.bin == c.bin then op.weight else 0.0
  }

  lemma StepConserves(data: Store, op: Op, lsBased: bool, c: Cell)
    requires Consistent(data) && Allowed(data, op)
    ensures Consistent(Step(data, op, lsBased))
    ensures Total(Step(data, op, lsBased), c) ==
            Total(data, c) + if op.Fill? && In(op.key, c) && op.bin == c.bin then op.weight else 0.0
  {
    match op
    case Book(k, e) =>
      TotalUpdate(data, k, e, c);
      BinPlus(e, e, c.bin);
    case Fill(k, bin, weight) =>
      TotalUpdate(data, k, Filled(data[k], bin, weight), c);
      assert SameShape(Filled(data[k], bin, weight).content, data[k].content);
    case MergeLumi(q) =>
      ScanConserves(data, From(data.Keys, Proto(q)), q, lsBased, c);
  }

  /** After any bookings, fills and merges, the copies of a bin sum up to what
      was filled into it. */
  lemma {:induction false} RunConserves(ops: seq<Op>, lsBased: bool, c: Cell)
    requires Valid(ops, lsBased)
    ensures Consistent(Run(ops, lsBased)) && Total(Run(ops, lsBased), c) == Weight(ops, c)
  {
    if ops != [] {
      var init := ops[..|ops| - 1];
      RunConserves(init, lsBased, c);
      hide Consistent, Total, Allowed, Step;
      StepConserves(Run(init, lsBased), ops[|ops| - 1], lsBased, c);
    }
  }

  lemma StepBooked(data: Store, op: Op, lsBased: bool)
    requires Booked(data) && Allowed(data, op)
    ensures Booked(Step(data, op, lsBased))
  {
    if op.MergeLumi? {
      MergeMovesEachOnce(data, op.q, lsBased);
      hide Merged, Plus, Reset;
    }
  }

  lemma {:induction false} RunBooked(ops: seq<Op>, lsBased: bool)
    requires Valid(ops, lsBased)
    ensures Booked(Run(ops, lsBased))
  {
    if ops != [] {
      var init := ops[..|ops| - 1];
      RunBooked(init, lsBased);
      hide Booked, Allowed, Step;
      StepBooked(Run(init, lsBased), ops[|ops| - 1], lsBased);
    }
  }

  /** So after any bookings, fills and merges, a merge takes every local copy of
      its stream and module exactly once. */
  lemma RunMovesEachOnce(ops: seq<Op>, q: Merge, lsBased: bool)
    requires Valid(ops, lsBased) && (q.stream, q.mod) != (0, 0)
    ensures var data := Run(ops, lsBased);
      var ks := set k | k in data && Local(k, q) && PerLumi(data[k], lsBased);
      Locals(data, ks, q) && Merged(data, q, lsBased) == MovedTo(data, ks, q)
  {
    hide Run, Merged;
    RunBooked(ops, lsBased);
    MergeMovesEachOnce(Run(ops, lsBased), q, lsBased);
  }

  // ----- what each copy holds after a run

  /** The bin of a copy, 0 while there is none. */
  function Held(data: Store, k: Key, bin: nat): real {
    if k in data then BinOf(data[k], bin) else 0.0
  }

  /** A merge takes the local copy k. */
  ghost predicate Takes(data: Store, q: Merge, lsBased: bool, k: Key) {
    k == Key(q.run, 0, q.stream, q.mod, k.dir, k.name) && k in data && (data[k].lumiFlag || lsBased)
  }

  /** What has been filled into a local copy since a merge took it last. */
  ghost function SinceMerged(ops: seq<Op>, lsBased: bool, k: Key, bin: nat): real
    requires Valid(ops, lsBased)
  {
    if ops == [] then 0.0
    else
      var init := ops[..|ops| - 1];
      var before := SinceMerged(init, lsBased, k, bin);
      match ops[|ops| - 1]
      case Book(_, _) => before
      case Fill(j, b, weight) => if j == k && b == bin then before + weight else before
      case MergeLumi(q) => if Takes(Run(init, lsBased), q, lsBased, k) then 0.0 else before
  }

  /** What has been filled into the global copy for a lumi, or into local copies
      before merges for that lumi took them. */
  ghost function Collected(ops: seq<Op>, lsBased: bool, run: nat, lumi: nat, dir: string, name: string, bin: nat): real
    requires Valid(ops, lsBased)
  {
    if ops == [] then 0.0
    else
      var init := ops[..|ops| - 1];
      var before := Collected(init, lsBased, run, lumi, dir, name, bin);
      match ops[|ops| - 1]
      case Book(_, _) => before
      case Fill(j, b, weight) =>
        if j == Key(run, lumi, 0, 0, dir, name) && b == bin then before + weight else before
      case MergeLumi(q) =>
        var k := Key(run, 0, q.stream, q.mod, dir, name);
        if q.lumi == lumi && Takes(Run(init, lsBased), q, lsBased, k)
        then before + SinceMerged(init, lsBased, k, bin)
        else before
  }

  lemma FillHeld(data: Store, j: Key, b: nat, weight: real, k: Key, bin: nat)
    requires j in data && data[j].content.Hist? && b < |data[j].content.bins|
    ensures Held(data[j := Filled(data[j], b, weight)], k, bin) ==
            Held(data, k, bin) + if j == k && b == bin then weight else 0.0
  {
  }

  lemma BookHeld(data: Store, j: Key, e: Element, k: Key, bin: nat)
    requires j !in data && Reset(e) == e
    ensures Held(data[j := e], k, bin) == Held(data, k, bin)
  {
    if j == k && e.content.Hist? && bin < |e.content.bins| {
      assert e.content.bins == Cleared(e.content).bins;
    }
  }

  lemma MergeHeldLocal(data: Store, q: Merge, lsBased: bool, k: Key, bin: nat)
    requires Booked(data) && (q.stream, q.mod) != (0, 0) && (k.stream, k.mod) != (0, 0) && k.lumi == 0
    ensures Held(Merged(data, q, lsBased), k, bin) == if Takes(data, q, lsBased, k) then 0.0 else Held(data, k, bin)
  {
    hide Merged, Booked;
    if k == Key(q.run, 0, q.stream, q.mod, k.dir, k.name) {
      MergeWritten(data, q, lsBased, k.dir, k.name);
      if Takes(data, q, lsBased, k) {
        MergeEmpties(data, q, lsBased, k);
      }
    } else {
      MergeElsewhere(data, q, lsBased, k);
    }
  }

  /** A local copy holds no bins after it has been taken, whatever it is. */
  lemma MergeEmpties(data: Store, q: Merge, lsBased: bool, k: Key)
    requires Booked(data) && (q.stream, q.mod) != (0, 0) && Takes(data, q, lsBased, k)
    ensures k in Merged(data, q, lsBased) && Merged(data, q, lsBased)[k] == Reset(data[k])
  {
    hide Merged, Booked;
    MergeMovesEachOnce(data, q, lsBased);
  }

  lemma MergeHeldGlobal(data: Store, q: Merge, lsBased: bool, g: Key, bin: nat)
    requires Booked(data) && Consistent(data) && (q.stream, q.mod) != (0, 0) && (g.stream, g.mod) == (0, 0)
    ensures var k := Key(g.run, 0, q.stream, q.mod, g.dir, g.name);
      Held(Merged(data, q, lsBased), g, bin) ==
      Held(data, g, bin) + if q.lumi == g.lumi && Takes(data, q, lsBased, k) then Held(data, k, bin) else 0.0
  {
    var k := Key(g.run, 0, q.stream, q.mod, g.dir, g.name);
    if g in data && k in data {
      assert SameShape(data[g].content, data[k].content);
    }
    hide Merged, Booked, Consistent;
    if g == Key(q.run, q.lumi, 0, 0, g.dir, g.name) {
      MergeWritten(data, q, lsBased, g.dir, g.name);
      if Takes(data, q, lsBased, k) && g in data && !data[k].content.Hist? {
        MergeKeepsOther(data, q, lsBased, k);
      }
    } else {
      MergeElsewhere(data, q, lsBased, g);
    }
  }

  lemma MergeKeepsOther(data: Store, q: Merge, lsBased: bool, k: Key)
    requires Booked(data) && (q.stream, q.mod) != (0, 0) && Takes(data, q, lsBased, k)
    requires var g := Key(q.run, q.lumi, 0, 0, k.dir, k.name); g in data && !data[k].content.Hist?
    ensures var g := Key(q.run, q.lumi, 0, 0, k.dir, k.name);
      g in Merged(data, q, lsBased) && Merged(data, q, lsBased)[g] == data[g]
  {
    hide Merged, Booked;
    MergeMovesEachOnce(data, q, lsBased);
    var g := Key(q.run, q.lumi, 0, 0, k.dir, k.name);
    assert Source(g, q) == k && Target(k, q.lumi) == g;
  }

  /** After any bookings, fills and merges, a local copy holds what has been
      filled into it since it was merged last, and the global copy for a lumi
      what has been filled into it and what the merges for that lumi took. */
  lemma {:induction false} RunHolds(ops: seq<Op>, lsBased: bool, k: Key, bin: nat)
    requires Valid(ops, lsBased) && ((k.stream, k.mod) != (0, 0) ==> k.lumi == 0)
    ensures Held(Run(ops, lsBased), k, bin) ==
      if (k.stream, k.mod) == (0, 0) then Collected(ops, lsBased, k.run, k.lumi, k.dir, k.name, bin)
      else SinceMerged(ops, lsBased, k, bin)
  {
    if ops != [] {
      var init, op := ops[..|ops| - 1], ops[|ops| - 1];
      var data := Run(init, lsBased);
      RunHolds(init, lsBased, k, bin);
      RunBooked(init, lsBased);
      RunConserves(init, lsBased, Cell(0, "", "", 0));
      match op
      case Book(j, e) => BookHeld(data, j, e, k, bin);
      case Fill(j, b, weight) => FillHeld(data, j, b, weight, k, bin);
      case MergeLumi(q) =>
        hide Booked, Consistent, Merged, Takes, Total, Held;
        if (k.stream, k.mod) == (0, 0) {
          RunHolds(init, lsBased, Key(k.run, 0, q.stream, q.mod, k.dir, k.name), bin);
          MergeHeldGlobal(data, q, lsBased, k, bin);
        } else {
          MergeHeldLocal(data, q, lsBased, k, bin);
        }
    }
  }

  // ----- the class

  class DQMStore {
    var data: Store
    const lsBased: bool

    constructor (lsBased: bool)
      ensures data == map[] && this.lsBased == lsBased
    {
      data := map[];
      this.lsBased := lsBased;
    }

    /** The first element of the set that is not before lo. */
    method LowerBound(lo: Key) returns (i: Option<Key>)
      ensures i == From(data.Keys, lo)
    {
      var rest: set<Key> := set k | k in data.Keys && !Before(k, lo);
      i := Smallest(rest);
    }

    /** ++i */
    method Next(k: Key) returns (i: Option<Key>)
      ensures i == After(data.Keys, k)
    {
      var rest: set<Key> := set j | j in data.Keys && Before(k, j);
      i := Smallest(rest);
    }

    static method Smallest(s: set<Key>) returns (i: Option<Key>)
      ensures i == Least(s)
    {
      i := None;
      var rest: set<Key> := s;
      while rest != {}
        invariant LeastSoFar(s, rest, i)
        decreases |rest|
      {
        hide LeastSoFar, Before;
        var k :| k in rest;
        LeastGrows(s, rest, i, k);
        if i.None? || Before(k, i.value) {
          i := Some(k);
        }
        rest := rest - {k};
      }
      LeastFound(s, i);
    }

    /** book() for an element that is not there yet. */
    method Book(k: Key, e: Element)
      requires Allowed(data, Op.Book(k, e))
      modifies this
      ensures data == Step(old(data), Op.Book(k, e), lsBased)
    {
      data := data[k := e];
    }

    method Fill(k: Key, bin: nat, weight: real)
      requires Allowed(data, Op.Fill(k, bin, weight))
      modifies this
      ensures data == Step(old(data), Op.Fill(k, bin, weight), lsBased)
    {
      data := data[k := Filled(data[k], bin, weight)];
    }

    /** mergeAndResetMEsLuminositySummaryCache */
    method MergeAndReset(run: nat, lumi: nat, stream: nat, mod: nat)
      modifies this
      ensures data == Merged(old(data), Merge(run, lumi, stream, mod), lsBased)
    {
      ghost var q := Merge(run, lumi, stream, mod);
      var i := LowerBound(Key(run, 0, stream, mod, "", ""));
      hide From;
      while i.Some?
        invariant i.Some? ==> i.value in data
        invariant Scan(data, i, q, lsBased) == Merged(old(data), q, lsBased)
        decreases |Ahead(data, i, lumi)|
      {
        hide Ahead, After, Universe;
        var k := i.value;
        if k.run != run || k.stream != stream || k.mod != mod {
          break;
        }
        ghost var before := data;
        if data[k].lumiFlag || lsBased {
          Move(k, lumi);
        }
        VisitUniverse(before, k, lumi);
        AheadShrinks(before, data, k, lumi);
        AfterIn(data.Keys, k);
        i := Next(k);
      }
    }

    /** The body of the merge's loop: find or insert the global copy, then
        reset the local one. */
    method Move(k: Key, lumi: nat)
      requires k in data
      modifies this
      ensures data == Visit(old(data), k, lumi)
    {
      var g := k.(stream := 0, mod := 0).(lumi := lumi);
      if g in data {
        match data[g].content
        case Hist(_) => data := data[g := data[g].(content := Added(data[g].content, data[k].content))];
        case _ => assert Plus(data[g], data[k]) == data[g];
      } else {
        data := data[g := data[k]];
      }
      data := data[k := data[k].(content := Cleared(data[k].content))];
    }
  }

  lemma AfterIn(keys: set<Key>, k: Key)
    ensures After(keys, k).Some? ==> After(keys, k).value in keys
  {
  }
}
