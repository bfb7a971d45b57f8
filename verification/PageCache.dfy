/** The in-memory page cache of VisDQMCache. */
module PageCache {
  import opened Bytes

  /** File and offset of a page; std::pair orders them lexicographically. */
  datatype FileKey = FileKey(file: nat, offset: nat)

  /** A page with the time it was put into the cache. */
  datatype LRUData = LRUData(time: nat, buf: Blob)

  type CacheMap = map<FileKey, LRUData>

  predicate KeyLess(a: FileKey, b: FileKey) {
    a.file < b.file || (a.file == b.file && a.offset < b.offset)
  }

  /** Older by time, and among equals first by key. */
  predicate Older(c: CacheMap, a: FileKey, b: FileKey)
    requires a in c && b in c
  {
    c[a].time < c[b].time || (c[a].time == c[b].time && KeyLess(a, b))
  }

  /** The bytes held. */
  ghost function Total(c: CacheMap): nat {
    if c == map[] then 0
    else
      var k :| k in c;
      |c[k].buf| + Total(c - {k})
  }

  lemma {:induction false} TotalWithout(c: CacheMap, k: FileKey)
    requires k in c
    ensures Total(c) == |c[k].buf| + Total(c - {k})
  {
    var j :| j in c && Total(c) == |c[j].buf| + Total(c - {j});
    if j != k {
      TotalWithout(c - {j}, k);
      TotalWithout(c - {k}, j);
      assert c - {j} - {k} == c - {k} - {j};
    }
  }

  lemma TotalWith(c: CacheMap, k: FileKey, d: LRUData)
    requires k !in c
    ensures Total(c[k := d]) == Total(c) + |d.buf|
  {
    TotalWithout(c[k := d], k);
    assert c[k := d] - {k} == c;
  }

  ghost predicate IsOldest(c: CacheMap, v: FileKey) {
    v in c && forall k | k in c && k != v :: Older(c, v, k)
  }

  lemma {:induction false} OldestExists(c: CacheMap) returns (v: FileKey)
    requires c != map[]
    ensures IsOldest(c, v)
  {
    var k :| k in c;
    var d := c - {k};
    assert forall j | j in c :: j == k || j in d;
    if d == map[] {
      v := k;
    } else {
      var w := OldestExists(d);
      v := if Older(c, w, k) then w else k;
      forall j | j in c && j != v
        ensures Older(c, v, j)
      {
        assert j == k || j == w || (j in d && Older(d, w, j));
      }
    }
  }

  /** What shrink leaves: the oldest page goes until the rest fits. */
  ghost function Shrunk(c: CacheMap, limit: nat): (r: CacheMap)
    decreases |c|
  {
    if Total(c) <= limit || c == map[] then c
    else
      var v := OldestKey(c);
      Shrunk(c - {v}, limit)
  }

  lemma SomeOldest(c: CacheMap)
    requires c != map[]
    ensures exists v :: IsOldest(c, v)
  {
    var v := OldestExists(c);
  }

  ghost function OldestKey(c: CacheMap): (v: FileKey)
    requires c != map[]
    ensures IsOldest(c, v)
  {
    SomeOldest(c);
    var v :| IsOldest(c, v);
    v
  }

  lemma OldestUnique(c: CacheMap, v: FileKey, w: FileKey)
    requires IsOldest(c, v) && IsOldest(c, w)
    ensures v == w
  {
  }

  /** e is the last page evicted. */
  ghost predicate LastEvicted(c: CacheMap, r: CacheMap, e: FileKey) {
    e in c && e !in r && forall f | f in c && f !in r && f != e :: Older(c, f, e)
  }

  /** The pages evicted are the shortest prefix, in order of age, that brings the
      rest within the limit: all are older than all that stay, what stays fits,
      and with the youngest of them kept as well it would not. */
  ghost predicate ShortestPrefixEvicted(c: CacheMap, r: CacheMap, limit: nat) {
    && r.Keys <= c.Keys && (forall k | k in r :: r[k] == c[k])
    && (forall e, k | e in c && e !in r && k in r :: Older(c, e, k))
    && Total(r) <= limit
    && forall e | LastEvicted(c, r, e) :: Total(r[e := c[e]]) > limit
  }

  lemma LastEvictedStep(c: CacheMap, v: FileKey, r: CacheMap, e: FileKey)
    requires IsOldest(c, v) && v !in r && LastEvicted(c, r, e)
    ensures e == v ==> forall f | f in c && f != v :: f in r
    ensures e != v ==> LastEvicted(c - {v}, r, e)
  {
    if e == v {
      forall f | f in c && f != v
        ensures f in r
      {
        assert Older(c, v, f);
        assert f !in r ==> Older(c, f, v);
      }
    } else {
      forall f | f in c - {v} && f !in r && f != e
        ensures Older(c - {v}, f, e)
      {
        assert Older(c, f, e);
      }
    }
  }

  lemma PrefixStep(c: CacheMap, v: FileKey, r: CacheMap, limit: nat)
    requires IsOldest(c, v) && Total(c) > limit && ShortestPrefixEvicted(c - {v}, r, limit)
    ensures ShortestPrefixEvicted(c, r, limit)
  {
    hide Total;
    var d := c - {v};
    forall e, k | e in c && e !in r && k in r
      ensures Older(c, e, k)
    {
      assert e == v || Older(d, e, k);
    }
    forall e | LastEvicted(c, r, e)
      ensures Total(r[e := c[e]]) > limit
    {
      LastEvictedStep(c, v, r, e);
      if e == v {
        assert r[v := c[v]] == c;
      } else {
        assert LastEvicted(d, r, e) && c[e] == d[e];
      }
    }
  }

  lemma {:induction false} ShrunkIsPrefix(c: CacheMap, limit: nat)
    ensures ShortestPrefixEvicted(c, Shrunk(c, limit), limit)
    decreases |c|
  {
    if Total(c) > limit {
      var v := OldestKey(c);
      ShrunkIsPrefix(c - {v}, limit);
      PrefixStep(c, v, Shrunk(c - {v}, limit), limit);
    }
  }

  /** Every page evicted was put before every page that stays, or at the same
      time and comes first by file and offset. What stays fits, and would not
      with the last page evicted. */
  lemma ShrunkEvictsPrefix(c: CacheMap, limit: nat)
    ensures var r := Shrunk(c, limit);
      && r.Keys <= c.Keys && (forall k | k in r :: r[k] == c[k]) && Total(r) <= limit
      && (forall e, k | e in c && e !in r && k in r ::
            || c[e].time < c[k].time
            || (c[e].time == c[k].time && (e.file < k.file || (e.file == k.file && e.offset < k.offset))))
      && forall e | LastEvicted(c, r, e) :: e in c && Total(r[e := c[e]]) > limit
  {
    hide Total, Shrunk, ShortestPrefixEvicted, LastEvicted;
    ShrunkIsPrefix(c, limit);
    PrefixMeans(c, Shrunk(c, limit), limit);
  }

  lemma PrefixMeans(c: CacheMap, r: CacheMap, limit: nat)
    requires ShortestPrefixEvicted(c, r, limit)
    ensures r.Keys <= c.Keys && (forall k | k in r :: r[k] == c[k]) && Total(r) <= limit
    ensures forall e, k | e in c && e !in r && k in r ::
      || c[e].time < c[k].time
      || (c[e].time == c[k].time && (e.file < k.file || (e.file == k.file && e.offset < k.offset)))
    ensures forall e | LastEvicted(c, r, e) :: e in c && Total(r[e := c[e]]) > limit
  {
    hide Total;
  }

  /** There is only one such set of pages to keep. */
  lemma PrefixUnique(c: CacheMap, r: CacheMap, limit: nat)
    requires ShortestPrefixEvicted(c, r, limit) && (forall k | k in c :: c[k].buf != [])
    ensures r == Shrunk(c, limit)
  {
    ShrunkIsPrefix(c, limit);
    var s := Shrunk(c, limit);
    Comparable(c, r, s);
    if r.Keys <= s.Keys {
      SamePrefix(c, r, s, limit);
    } else {
      SamePrefix(c, s, r, limit);
    }
  }

  lemma Comparable(c: CacheMap, r: CacheMap, s: CacheMap)
    requires r.Keys <= c.Keys && s.Keys <= c.Keys
    requires forall e, k | e in c && e !in r && k in r :: Older(c, e, k)
    requires forall e, k | e in c && e !in s && k in s :: Older(c, e, k)
    ensures r.Keys <= s.Keys || s.Keys <= r.Keys
  {
  }

  lemma SamePrefix(c: CacheMap, r: CacheMap, s: CacheMap, limit: nat)
    requires ShortestPrefixEvicted(c, r, limit) && ShortestPrefixEvicted(c, s, limit)
    requires r.Keys <= s.Keys
    ensures r == s
  {
    if k :| k in s && k !in r {
      hide Total;
      assert k in c.Keys - r.Keys;
      var e := Youngest(c, c.Keys - r.Keys);
      assert e in s by {
        assert e !in s ==> Older(c, e, k);
        assert e != k ==> Older(c, k, e);
      }
      hide Older;
      TotalMonotonic(r[e := c[e]], s);
    }
    assert r.Keys == s.Keys;
  }

  lemma {:induction false} Youngest(c: CacheMap, ks: set<FileKey>) returns (e: FileKey)
    requires ks <= c.Keys && ks != {}
    ensures e in ks && forall f | f in ks && f != e :: Older(c, f, e)
  {
    var k :| k in ks;
    var rest := ks - {k};
    if rest == {} {
      e := k;
      assert forall f | f in ks && f != k :: f in rest;
    } else {
      var w := Youngest(c, rest);
      e := if Older(c, k, w) then w else k;
      forall f | f in ks && f != e
        ensures Older(c, f, e)
      {
        assert f == k || f == w || (f in rest && Older(c, f, w));
      }
    }
  }

  lemma {:induction false} TotalMonotonic(a: CacheMap, b: CacheMap)
    requires a.Keys <= b.Keys && forall k | k in a :: a[k] == b[k]
    ensures Total(a) <= Total(b)
  {
    if a != map[] {
      var k :| k in a;
      TotalWithout(a, k);
      TotalWithout(b, k);
      TotalMonotonic(a - {k}, b - {k});
    }
  }

  /** The page itself, those put later, and of those put at the same time the
      ones that come after it by file and offset. */
  ghost function Later(c: CacheMap, key: FileKey): CacheMap
    requires key in c
  {
    map k | k in c &&
      (|| c[k].time > c[key].time
       || (c[k].time == c[key].time && (k.file > key.file || (k.file == key.file && k.offset >= key.offset))))
      :: c[k]
  }

  lemma LaterIs(c: CacheMap, key: FileKey)
    requires key in c
    ensures Later(c, key).Keys == set k | k in c && !Older(c, k, key)
    ensures forall k | k in Later(c, key) :: Later(c, key)[k] == c[k]
  {
  }

  lemma YoungerStay(c: CacheMap, r: CacheMap, key: FileKey, limit: nat)
    requires ShortestPrefixEvicted(c, r, limit) && key in r && key in c
    ensures Total(Later(c, key)) <= limit
  {
    hide Total, Later;
    LaterIs(c, key);
    var later := Later(c, key);
    forall k | k in later
      ensures k in r && r[k] == later[k]
    {
      assert !Older(c, k, key);
    }
    TotalMonotonic(later, r);
  }

  lemma YoungestTooMuch(c: CacheMap, r: CacheMap, key: FileKey, limit: nat)
    requires ShortestPrefixEvicted(c, r, limit) && key !in r && key in c
    ensures Total(Later(c, key)) > limit
  {
    hide Total, Later;
    LaterIs(c, key);
    assert key in c.Keys - r.Keys;
    var e := Youngest(c, c.Keys - r.Keys);
    assert LastEvicted(c, r, e);
    var kept, later := r[e := c[e]], Later(c, key);
    forall k | k in kept
      ensures k in later && later[k] == kept[k]
    {
      assert k in r ==> Older(c, key, k);
    }
    hide ShortestPrefixEvicted, LastEvicted;
    TotalMonotonic(kept, later);
  }

  /** A page stays iff it fits together with the pages that are evicted after
      it: those put later and, of the same time, those of a greater key. */
  lemma StaysIff(c: CacheMap, key: FileKey, limit: nat)
    requires key in c
    ensures key in Shrunk(c, limit) <==> Total(Later(c, key)) <= limit
  {
    hide Total, Later;
    ShrunkIsPrefix(c, limit);
    hide ShortestPrefixEvicted, Shrunk;
    if key in Shrunk(c, limit) {
      YoungerStay(c, Shrunk(c, limit), key, limit);
    } else {
      YoungestTooMuch(c, Shrunk(c, limit), key, limit);
    }
  }

  /** A page put after all others stays iff it fits by itself. */
  lemma JustPutStays(c: CacheMap, key: FileKey, limit: nat)
    requires key in c && forall k | k in c && k != key :: c[k].time < c[key].time
    ensures key in Shrunk(c, limit) <==> |c[key].buf| <= limit
  {
    StaysIff(c, key, limit);
    hide Shrunk;
    assert Later(c, key) == map[][key := c[key]];
    TotalWith(map[], key, c[key]);
  }

  // ----- the cache object

  class VisDQMCache {
    var maxsize: nat
    var cursize: nat
    var cache: CacheMap

    /** The accounts balance, every page holds data and the limit is kept. */
    ghost predicate Valid()
      reads this
    {
      && cursize == Total(cache) <= maxsize
      && forall k | k in cache :: cache[k].buf != []
    }

    constructor (max: nat)
      ensures Valid() && cache == map[] && maxsize == max
    {
      maxsize, cursize, cache := max, 0, map[];
    }

    /** Hand over a page and forget it. */
    method Get(file: nat, offset: nat, old_: Blob) returns (found: bool, into: Blob)
      requires Valid()
      modifies this
      ensures Valid() && maxsize == old(maxsize)
      ensures found <==> FileKey(file, offset) in old(cache)
      ensures found ==> into == old(cache)[FileKey(file, offset)].buf && cache == old(cache) - {FileKey(file, offset)}
      ensures !found ==> into == old_ && cache == old(cache)
    {
      var key := FileKey(file, offset);
      found, into := false, old_;
      if key in cache {
        TotalWithout(cache, key);
        cursize := cursize - |cache[key].buf|;
        into := cache[key].buf;
        cache := cache - {key};
        found := true;
      }
    }

    /** Take over a page that is not in the cache, then shrink to the limit. */
    method Put(file: nat, offset: nat, from: Blob, now: nat)
      requires Valid() && from != [] && FileKey(file, offset) !in cache
      modifies this
      ensures Valid() && maxsize == old(maxsize)
      ensures cache == Shrunk(old(cache)[FileKey(file, offset) := LRUData(now, from)], maxsize)
      ensures (forall k | k in old(cache) :: old(cache)[k].time < now) ==>
        (FileKey(file, offset) in cache <==> |from| <= maxsize)
    {
      var key := FileKey(file, offset);
      if forall k | k in cache :: cache[k].time < now {
        JustPutStays(cache[key := LRUData(now, from)], key, maxsize);
      }
      TotalWith(cache, key, LRUData(now, from));
      cursize := cursize + |from|;
      cache := cache[key := LRUData(now, from)];
      Shrink();
    }

    method Flush()
      requires Valid()
      modifies this
      ensures Valid() && maxsize == old(maxsize) && cache == map[]
    {
      cache := map[];
      cursize := 0;
    }

    method Shrink()
      requires cursize == Total(cache) && forall k | k in cache :: cache[k].buf != []
      modifies this`cursize, this`cache
      ensures cursize == Total(cache) <= maxsize
      ensures cache == Shrunk(old(cache), maxsize)
      ensures forall e, k | e in old(cache) && e !in cache && k in cache ::
        || old(cache)[e].time < cache[k].time
        || (old(cache)[e].time == cache[k].time && (e.file < k.file || (e.file == k.file && e.offset < k.offset)))
      ensures forall k | k in cache :: cache[k].buf != []
    {
      ShrunkEvictsPrefix(cache, maxsize);
      while cursize > maxsize
        invariant cursize == Total(cache) && forall k | k in cache :: cache[k].buf != []
        invariant Shrunk(cache, maxsize) == Shrunk(old(cache), maxsize)
        decreases |cache|
      {
        var oldest := FindOldest();
        OldestUnique(cache, oldest, OldestKey(cache));
        TotalWithout(cache, oldest);
        cursize := cursize - |cache[oldest].buf|;
        cache := cache - {oldest};
      }
    }

    /** The scan of the map in key order, which keeps the first of the oldest. */
    method FindOldest() returns (oldest: FileKey)
      requires cache != map[]
      ensures IsOldest(cache, oldest)
      ensures oldest in cache && forall k | k in cache && k != oldest ::
        || cache[oldest].time < cache[k].time
        || (cache[oldest].time == cache[k].time
            && (oldest.file < k.file || (oldest.file == k.file && oldest.offset < k.offset)))
    {
      var todo := cache.Keys;
      oldest := FirstKey(todo);
      todo := todo - {oldest};
      while todo != {}
        invariant todo <= cache.Keys && oldest in cache && oldest !in todo
        invariant forall k | k in cache && k !in todo && k != oldest :: Older(cache, oldest, k)
        invariant forall j, k | j in cache && j !in todo && k in todo :: KeyLess(j, k)
        decreases |todo|
      {
        var pos := FirstKey(todo);
        todo := todo - {pos};
        if cache[pos].time < cache[oldest].time {
          oldest := pos;
        }
      }
    }

    /** The next position of an iterator that has todo still to visit. */
    method FirstKey(todo: set<FileKey>) returns (first: FileKey)
      requires todo != {}
      ensures first in todo && forall k | k in todo && k != first :: KeyLess(first, k)
    {
      first :| first in todo;
      var rest := todo - {first};
      while rest != {}
        invariant rest <= todo && first in todo && first !in rest
        invariant forall k | k in todo && k !in rest && k != first :: KeyLess(first, k)
        decreases |rest|
      {
        var k :| k in rest;
        rest := rest - {k};
        if KeyLess(k, first) {
          first := k;
        }
      }
    }
  }
}
