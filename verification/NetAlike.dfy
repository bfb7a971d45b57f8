/** Nodes that differ in the times of requests and waits, and what messages
    make of them. */
module NetAlike {
  import opened Bytes
  import opened Wire
  import opened Messages
  import opened Options
  import opened NetState
  import opened NetSteps
  import opened NetFraming
  import opened NetSync
  import opened NetRelay
  import opened NetWaits
  import opened NetFlush
  import opened NetEffects

  // ----- states that differ in times only

  function Timeless(o: Object): Object {
    o.(lastreq := 0)
  }

  /** The same object, requested at another time; exact says that it must have
      been requested at all in both cases or in none. */
  predicate AlikeObject(o: Object, p: Object, exact: bool) {
    Timeless(o) == Timeless(p) && (exact ==> (o.lastreq > 0 <==> p.lastreq > 0))
  }

  ghost predicate AlikeObjects(x: map<Blob, Object>, y: map<Blob, Object>, exact: bool) {
    x.Keys == y.Keys && forall n | n in x :: AlikeObject(x[n], y[n], exact)
  }

  ghost predicate AlikeListed(x: seq<Object>, y: seq<Object>, exact: bool) {
    |x| == |y| && forall i | 0 <= i < |x| :: AlikeObject(x[i], y[i], exact)
  }

  ghost predicate AlikeQueued(x: Queued, y: Queued) {
    match x
    case Reply(name, Some(o)) =>
      y.Reply? && y.name == name && y.obj.Some? && AlikeObject(o, y.obj.value, false)
    case Listing(objs) => y.Listing? && AlikeListed(objs, y.objs, false)
    case _ => y == x
  }

  /** What a peer has been told, the requests made of it aside. */
  function Heard(log: seq<Queued>): seq<Queued> {
    if log == [] then []
    else Heard(log[..|log| - 1]) + (if log[|log| - 1].Request? then [] else [log[|log| - 1]])
  }

  ghost predicate AlikeLogs(x: seq<Queued>, y: seq<Queued>) {
    |x| == |y| && forall i | 0 <= i < |x| :: AlikeQueued(x[i], y[i])
  }

  /** All but the output and the request times of the objects. */
  ghost predicate AlikeStatus(p: Peer, q: Peer) {
    && p.order == q.order && p.incoming == q.incoming && p.connected == q.connected && p.mask == q.mask
    && p.source == q.source && p.update == q.update && p.updated == q.updated && p.updates == q.updates
    && p.waiting == q.waiting && p.asked == q.asked
  }

  predicate SameOutput(p: Peer, q: Peer) {
    p.sendq == q.sendq && p.sendpos == q.sendpos && p.written == q.written
  }

  ghost predicate AlikePeer(p: Peer, q: Peer, exact: bool) {
    && AlikeStatus(p, q) && AlikeObjects(p.objs, q.objs, exact) && AlikeLogs(Heard(p.log), Heard(q.log))
    && (exact ==> SameOutput(p, q))
  }

  ghost predicate SameWaits(a: seq<Wait>, b: seq<Wait>) {
    |a| == |b| && forall i | 0 <= i < |a| :: a[i] == b[i].(time := a[i].time)
  }

  /** The same node but for the times of requests and waits and for the output;
      if exact then the output is also the same and the same objects count as
      requested. */
  ghost predicate Alike(a: Net, b: Net, exact: bool) {
    && a.peers.Keys == b.peers.Keys && SameWaits(a.waiting, b.waiting)
    && a.flush == b.flush && a.wakeup == b.wakeup && a.nextFlush == b.nextFlush
    && forall s | s in a.peers :: AlikePeer(a.peers[s], b.peers[s], exact)
  }

  // ----- objects and output

  lemma SetAlike(a: Net, b: Net, s: Socket, p: Peer, q: Peer, exact: bool)
    requires Alike(a, b, exact) && s in a.peers && AlikePeer(p, q, exact)
    ensures s in b.peers && Alike(Update(a, s, p), Update(b, s, q), exact)
  {
    hide AlikePeer, SameWaits;
  }

  lemma PeerAlike(a: Net, b: Net, s: Socket, exact: bool)
    requires Alike(a, b, exact) && s in a.peers
    ensures s in b.peers && AlikePeer(a.peers[s], b.peers[s], exact)
  {
    hide AlikePeer, SameWaits;
  }

  lemma PutAlike(p: Peer, q: Peer, name: Blob, o: Object, o': Object, exact: bool)
    requires AlikePeer(p, q, exact) && AlikeObject(o, o', exact)
    ensures AlikePeer(PutObject(p, name, o), PutObject(q, name, o'), exact)
  {
    hide AlikeObject, Heard, AlikeLogs;
  }

  lemma HeardPush(log: seq<Queued>, q: Queued)
    ensures Heard(log + [q]) == if q.Request? then Heard(log) else Heard(log) + [q]
  {
    assert (log + [q])[..|log|] == log;
  }

  /** Two buckets of one kind, with the same bytes if exact. */
  ghost predicate AlikeBuckets(x: Queued, y: Queued, exact: bool) {
    AlikeQueued(x, y) && (exact ==> Data(x) == Data(y))
  }

  lemma EnqueueAlike(p: Peer, q: Peer, x: Queued, y: Queued, exact: bool)
    requires AlikePeer(p, q, exact) && AlikeBuckets(x, y, exact)
    ensures AlikePeer(Enqueue(p, x), Enqueue(q, y), exact)
  {
    assert x.Request? == y.Request? && AlikeQueued(x, y);
    hide AlikeQueued, Heard, Data, AlikeObjects, AlikeLogs;
    HeardPush(p.log, x);
    HeardPush(q.log, y);
    LogsPush(Heard(p.log), Heard(q.log), x, y);
  }

  lemma LogsPush(a: seq<Queued>, b: seq<Queued>, x: Queued, y: Queued)
    requires AlikeLogs(a, b) && AlikeQueued(x, y)
    ensures AlikeLogs(a + [x], b + [y])
  {
    hide AlikeQueued;
  }

  /** A request leaves no trace except in the output. */
  lemma RequestUnheard(p: Peer, q: Peer, name: Blob)
    requires AlikePeer(p, q, false)
    ensures AlikePeer(Enqueue(p, Request(name)), q, false) && AlikePeer(p, Enqueue(q, Request(name)), false)
  {
    HeardPush(p.log, Request(name));
    HeardPush(q.log, Request(name));
    hide AlikeQueued, Heard, Data, AlikeObjects, AlikeLogs;
  }

  lemma ReplyBytes(o: Object, p: Object, name: Blob)
    requires AlikeObject(o, p, false)
    ensures Data(Reply(name, Some(o))) == Data(Reply(name, Some(p)))
  {
    assert Timeless(o).flags == o.flags && Timeless(p).flags == p.flags;
    assert ObjectHeader(o, true) == ObjectHeader(p, true);
    hide Words;
  }

  lemma ReplyAlike(o: Option<Object>, p: Option<Object>, name: Blob, exact: bool)
    requires o.Some? == p.Some? && (o.Some? ==> AlikeObject(o.value, p.value, false))
    ensures AlikeBuckets(Reply(name, o), Reply(name, p), exact)
  {
    if o.Some? {
      ReplyBytes(o.value, p.value, name);
    }
    hide Data;
  }

  lemma ObjectBytes(o: Object, p: Object)
    requires AlikeObject(o, p, true)
    ensures EncodeObject(o, o.lastreq > 0) == EncodeObject(p, p.lastreq > 0)
  {
    assert Timeless(o).flags == o.flags && Timeless(p).flags == p.flags;
    assert ObjectHeader(o, o.lastreq > 0) == ObjectHeader(p, p.lastreq > 0);
    hide Words;
  }

  lemma {:induction false} ListingBytes(x: seq<Object>, y: seq<Object>)
    requires AlikeListed(x, y, true)
    ensures ObjectFrames(x) == ObjectFrames(y)
  {
    hide EncodeObject, AlikeObject;
    if x != [] {
      ListingBytes(x[..|x| - 1], y[..|y| - 1]);
      ObjectBytes(x[|x| - 1], y[|y| - 1]);
    }
  }

  lemma ListingAlike(x: seq<Object>, y: seq<Object>, exact: bool)
    requires AlikeListed(x, y, exact)
    ensures AlikeBuckets(Listing(x), Listing(y), exact)
  {
    if exact {
      ListingBytes(x, y);
    }
    hide ObjectFrames, Timeless, EncodeListBegin, EncodeListEnd;
  }

  lemma QueueAlike(a: Net, b: Net, s: Socket, x: Queued, y: Queued, exact: bool)
    requires Alike(a, b, exact) && Sound(a) && Sound(b) && s in a.peers && AlikeBuckets(x, y, exact)
    ensures s in b.peers && Alike(Queue(a, s, x), Queue(b, s, y), exact)
  {
    hide Alike, Sound, AlikePeer, AlikeBuckets, Queue, Enqueue;
    PeerAlike(a, b, s, exact);
    QueueIs(a, s, x);
    QueueIs(b, s, y);
    EnqueueAlike(a.peers[s], b.peers[s], x, y, exact);
    SetAlike(a, b, s, Enqueue(a.peers[s], x), Enqueue(b.peers[s], y), exact);
  }

  lemma CacheAlike(a: Net, b: Net, k: Socket, name: Blob, o: Object, p: Object, exact: bool)
    requires Alike(a, b, exact) && Sound(a) && Sound(b) && k in a.peers && AlikeObject(o, p, exact)
    ensures k in b.peers && Alike(Cache(a, k, name, o), Cache(b, k, name, p), exact)
  {
    hide Alike, Sound, AlikePeer, AlikeObject, Cache, PutObject;
    PeerAlike(a, b, k, exact);
    CacheIs(a, k, name, o);
    CacheIs(b, k, name, p);
    PutAlike(a.peers[k], b.peers[k], name, o, p, exact);
    SetAlike(a, b, k, PutObject(a.peers[k], name, o), PutObject(b.peers[k], name, p), exact);
  }

  lemma RequestBuckets(name: Blob, exact: bool)
    ensures AlikeBuckets(Request(name), Request(name), exact)
  {
  }

  lemma RequestAlike(a: Net, b: Net, s: Socket, name: Blob, exact: bool)
    requires Alike(a, b, exact) && s in a.peers
    ensures s in b.peers && Alike(RequestObjectData(a, s, name), RequestObjectData(b, s, name), exact)
  {
    PeerAlike(a, b, s, exact);
    hide Alike, AlikePeer, AlikeBuckets, Data;
    RequestBuckets(name, exact);
    EnqueueAlike(a.peers[s], b.peers[s], Request(name), Request(name), exact);
    SetAlike(a, b, s, Enqueue(a.peers[s], Request(name)), Enqueue(b.peers[s], Request(name)), exact);
  }

  lemma RequestMakesNoDifference(a: Net, b: Net, s: Socket, name: Blob)
    requires Alike(a, b, false) && s in a.peers
    ensures Alike(RequestObjectData(a, s, name), b, false)
    ensures s in b.peers && Alike(a, RequestObjectData(b, s, name), false)
  {
    PeerAlike(a, b, s, false);
    hide Alike, AlikePeer, Data;
    RequestUnheard(a.peers[s], b.peers[s], name);
    var p, q := a.peers[s], b.peers[s];
    SetAlike(a, b, s, Enqueue(p, Request(name)), q, false);
    SetAlike(a, b, s, p, Enqueue(q, Request(name)), false);
    hide Enqueue;
    UpdateSame(a, s);
    UpdateSame(b, s);
  }

  lemma UpdateSame(net: Net, s: Socket)
    requires s in net.peers
    ensures Update(net, s, net.peers[s]) == net
  {
    assert net.peers[s := net.peers[s]] == net.peers;
  }

  // ----- waits

  lemma WaitAlike(a: Net, b: Net, i: nat, exact: bool)
    requires Alike(a, b, exact) && i < |a.waiting|
    ensures i < |b.waiting| == |a.waiting| && b.waiting[i] == a.waiting[i].(time := b.waiting[i].time)
  {
    hide AlikePeer;
  }

  lemma WaitsAlike(a: Net, b: Net, ws: seq<Wait>, vs: seq<Wait>, exact: bool)
    requires Alike(a, b, exact) && SameWaits(ws, vs)
    ensures Alike(a.(waiting := ws), b.(waiting := vs), exact)
  {
    hide AlikePeer, SameWaits;
  }

  lemma WithoutAlike(ws: seq<Wait>, vs: seq<Wait>, i: nat)
    requires SameWaits(ws, vs) && i < |ws|
    ensures SameWaits(Without(ws, i), Without(vs, i))
  {
  }

  lemma ServedAlike(p: Peer, q: Peer, name: Blob, o: Option<Object>, o': Option<Object>, exact: bool)
    requires AlikePeer(p, q, exact) && p.waiting > 0
    requires AlikeBuckets(Reply(name, o), Reply(name, o'), exact)
    ensures q.waiting > 0 && AlikePeer(Served(p, name, o), Served(q, name, o'), exact)
  {
    EnqueueAlike(p, q, Reply(name, o), Reply(name, o'), exact);
    hide Enqueue, AlikeObjects, AlikeLogs, Heard, Data;
  }

  lemma ReleaseAlike(a: Net, b: Net, i: nat, o: Option<Object>, p: Option<Object>, exact: bool)
    requires Alike(a, b, exact) && WaitInv(a) && WaitInv(b) && i < |a.waiting|
    requires o.Some? == p.Some? && (o.Some? ==> AlikeObject(o.value, p.value, false))
    ensures i < |b.waiting| && Alike(ReleaseOne(a, i, o), ReleaseOne(b, i, p), exact)
  {
    WaitAlike(a, b, i, exact);
    ServedKeeps(a, i, o);
    ServedKeeps(b, i, p);
    assert a.waiting[i].peer in a.peers && SameWaits(a.waiting, b.waiting);
    hide Alike, AlikePeer, AlikeObject, AlikeBuckets, WaitInv, Served, Without;
    var s, name := a.waiting[i].peer, a.waiting[i].name;
    PeerAlike(a, b, s, exact);
    ReplyAlike(o, p, name, exact);
    ServedAlike(a.peers[s], b.peers[s], name, o, p, exact);
    var q, q' := Served(a.peers[s], name, o), Served(b.peers[s], name, p);
    SetAlike(a, b, s, q, q', exact);
    WithoutAlike(a.waiting, b.waiting, i);
    WaitsAlike(Update(a, s, q), Update(b, s, q'), Without(a.waiting, i), Without(b.waiting, i), exact);
  }

  /** A verdict that releases the waits for a name. */
  ghost predicate ReleasesName(verdict: Wait -> Verdict, name: Blob, o: Option<Object>) {
    forall w :: verdict(w) == if w.name == name then Release(o) else Keep
  }

  lemma {:induction false} SweepAlike(a: Net, b: Net, i: nat, name: Blob, v: Wait -> Verdict, u: Wait -> Verdict,
                                      o: Option<Object>, p: Option<Object>, exact: bool)
    requires Alike(a, b, exact) && WaitInv(a) && WaitInv(b) && i <= |a.waiting| == |b.waiting|
    requires ReleasesName(v, name, o) && ReleasesName(u, name, p)
    requires o.Some? == p.Some? && (o.Some? ==> AlikeObject(o.value, p.value, false))
    ensures Alike(Sweep(a, i, v), Sweep(b, i, u), exact)
    decreases |a.waiting| - i
  {
    hide Alike, AlikeObject, WaitInv, ReleaseOne;
    if i < |a.waiting| {
      WaitAlike(a, b, i, exact);
      if a.waiting[i].name == name {
        ReleaseAlike(a, b, i, o, p, exact);
        ReleasedWaiting(a, i, o);
        ReleasedWaiting(b, i, p);
        SweepAlike(ReleaseOne(a, i, o), ReleaseOne(b, i, p), i, name, v, u, o, p, exact);
      } else {
        SweepAlike(a, b, i + 1, name, v, u, o, p, exact);
      }
    }
  }

  lemma SameWaitsLength(a: Net, b: Net, exact: bool)
    requires Alike(a, b, exact)
    ensures |a.waiting| == |b.waiting|
  {
  }

  lemma ReleasedAlike(a: Net, b: Net, name: Blob, o: Option<Object>, p: Option<Object>, exact: bool)
    requires Alike(a, b, exact) && Sound(a) && Sound(b)
    requires o.Some? == p.Some? && (o.Some? ==> AlikeObject(o.value, p.value, false))
    ensures Alike(Released(a, name, o), Released(b, name, p), exact)
  {
    var v, u := (w: Wait) => if w.name == name then Release(o) else Keep,
                (w: Wait) => if w.name == name then Release(p) else Keep;
    assert ReleasesName(v, name, o) && ReleasesName(u, name, p);
    SameWaitsLength(a, b, exact);
    assert Released(a, name, o) == Sweep(a, 0, v) && Released(b, name, p) == Sweep(b, 0, u);
    hide Alike, AlikeObject, WaitInv, OrdersInv, Sweep, Released, ReleasesName;
    SweepAlike(a, b, 0, name, v, u, o, p, exact);
  }

  lemma CountedAlike(p: Peer, q: Peer, exact: bool)
    requires AlikePeer(p, q, exact)
    ensures AlikePeer(p.(waiting := p.waiting + 1), q.(waiting := q.waiting + 1), exact)
  {
    hide AlikeObjects, AlikeLogs, Heard;
  }

  lemma PushWait(ws: seq<Wait>, vs: seq<Wait>, w: Wait, v: Wait)
    requires SameWaits(ws, vs) && v == w.(time := v.time)
    ensures SameWaits(ws + [w], vs + [v])
  {
  }

  lemma AddWaitIs(net: Net, s: Socket, w: Wait)
    requires WaitInv(net) && s in net.peers && w.peer == s
    ensures AddWait(net, s, w) ==
      Update(net, s, net.peers[s].(waiting := net.peers[s].waiting + 1)).(waiting := net.waiting + [w])
  {
    hide WaitInv, WaitNames, OnlyQueues;
  }

  lemma AddWaitAlike(a: Net, b: Net, s: Socket, w: Wait, v: Wait, exact: bool)
    requires Alike(a, b, exact) && WaitInv(a) && WaitInv(b) && s in a.peers
    requires w.peer == s && v == w.(time := v.time)
    ensures s in b.peers && Alike(AddWait(a, s, w), AddWait(b, s, v), exact)
  {
    PeerAlike(a, b, s, exact);
    var p, q := a.peers[s].(waiting := a.peers[s].waiting + 1), b.peers[s].(waiting := b.peers[s].waiting + 1);
    CountedAlike(a.peers[s], b.peers[s], exact);
    assert SameWaits(a.waiting, b.waiting);
    hide Alike, AlikePeer, WaitInv, SameWaits, AddWait;
    AddWaitIs(a, s, w);
    AddWaitIs(b, s, v);
    PushWait(a.waiting, b.waiting, w, v);
    SetAlike(a, b, s, p, q, exact);
    WaitsAlike(Update(a, s, p), Update(b, s, q), a.waiting + [w], b.waiting + [v], exact);
  }

  lemma DeferredAlike(a: Net, b: Net, s: Socket, name: Blob, k: Socket, ta: nat, tb: nat, exact: bool)
    requires Alike(a, b, exact) && Sound(a) && Sound(b) && s in a.peers && k in a.peers
    ensures s in b.peers && k in b.peers
    ensures Alike(Deferred(a, s, name, k, ta), Deferred(b, s, name, k, tb), exact)
  {
    PeerAlike(a, b, s, exact);
    RequestAlike(a, b, k, name, exact);
    hide Alike, WaitInv, OrdersInv, RequestObjectData, AddWait, AlikePeer;
    AddWaitAlike(RequestObjectData(a, k, name), RequestObjectData(b, k, name), s,
                 Wait(ta, name, [], s), Wait(tb, name, [], s), exact);
  }

  // ----- owners and lists

  lemma OwnerAlike(a: Net, b: Net, name: Blob, exact: bool)
    requires Alike(a, b, exact)
    ensures FindOwner(a.peers, name) == FindOwner(b.peers, name)
  {
    hide FirstOwner, SortedKeys, SameWaits, AlikeObject, AlikeStatus, AlikeLogs, Heard;
    SameOwner(a.peers, b.peers, SortedKeys(a.peers.Keys), name);
  }

  lemma ObjectAlike(a: Net, b: Net, s: Socket, name: Blob, exact: bool)
    requires Alike(a, b, exact) && s in a.peers
    ensures s in b.peers && (name in a.peers[s].objs <==> name in b.peers[s].objs)
    ensures name in a.peers[s].objs ==> AlikeObject(a.peers[s].objs[name], b.peers[s].objs[name], exact)
  {
    PeerAlike(a, b, s, exact);
    hide Alike, AlikeObject, AlikeStatus, AlikeLogs, Heard;
  }

  lemma {:induction false} ObjectsAlike(p: Peer, q: Peer, order: seq<Blob>, exact: bool)
    requires AlikeObjects(p.objs, q.objs, exact) && forall n | n in order :: n in p.objs && n in q.objs
    ensures AlikeListed(ObjectsOf(p, order), ObjectsOf(q, order), exact)
  {
    hide AlikeObject;
    if order != [] {
      ObjectsAlike(p, q, order[..|order| - 1], exact);
    }
  }

  lemma ConcatAlike(x: seq<Object>, y: seq<Object>, x': seq<Object>, y': seq<Object>, exact: bool)
    requires AlikeListed(x, y, exact) && AlikeListed(x', y', exact)
    ensures AlikeListed(x + x', y + y', exact)
  {
    hide AlikeObject;
  }

  lemma {:induction false} PeersListed(a: Net, b: Net, ss: seq<Socket>, exact: bool)
    requires Alike(a, b, exact)
    requires forall s | s in ss :: s in a.peers && s in b.peers && OrderInv(a.peers[s]) && OrderInv(b.peers[s])
    ensures AlikeListed(ObjectsOfPeers(a.peers, ss), ObjectsOfPeers(b.peers, ss), exact)
  {
    if ss != [] {
      var init, s := ss[..|ss| - 1], ss[|ss| - 1];
      assert OrderInv(a.peers[s]) && OrderInv(b.peers[s]);
      PeerAlike(a, b, s, exact);
      PeersListed(a, b, init, exact);
      hide Alike, AlikeListed, Heard, AlikeLogs;
      var p, q := a.peers[s], b.peers[s];
      ObjectsAlike(p, q, p.order, exact);
      ConcatAlike(ObjectsOfPeers(a.peers, init), ObjectsOfPeers(b.peers, init), ObjectsOf(p, p.order),
                  ObjectsOf(q, q.order), exact);
    }
  }

  lemma AllObjectsAlike(a: Net, b: Net, exact: bool)
    requires Alike(a, b, exact) && Sound(a) && Sound(b)
    ensures OrdersInv(a) && OrdersInv(b)
    ensures AlikeBuckets(Listing(AllObjects(a)), Listing(AllObjects(b)), exact)
  {
    assert a.peers.Keys == b.peers.Keys;
    assert forall s | s in a.peers :: OrderInv(a.peers[s]) && OrderInv(b.peers[s]);
    hide Alike, AlikeListed, AlikeBuckets, WaitInv, OrderInv;
    PeersListed(a, b, SortedKeys(a.peers.Keys), exact);
    ListingAlike(AllObjects(a), AllObjects(b), exact);
  }

  // ----- the handlers

  lemma AskedAlike(a: Net, b: Net, s: Socket, name: Blob, exact: bool)
    requires Alike(a, b, exact) && Sound(a) && Sound(b) && s in a.peers
    ensures s in b.peers && Alike(Asked(a, s, name), Asked(b, s, name), exact)
  {
    PeerAlike(a, b, s, exact);
    AskedIs(a, s, name);
    AskedIs(b, s, name);
    StatusAlike(a.peers[s], b.peers[s], AskedBy(a.peers[s], name), AskedBy(b.peers[s], name), exact);
    hide Alike, Sound, AlikePeer, Asked, AskedBy;
    SetAlike(a, b, s, AskedBy(a.peers[s], name), AskedBy(b.peers[s], name), exact);
  }

  /** A change of the status alone. */
  lemma StatusAlike(p: Peer, q: Peer, p': Peer, q': Peer, exact: bool)
    requires AlikePeer(p, q, exact) && AlikeStatus(p', q')
    requires p'.objs == p.objs && p'.log == p.log && SameOutput(p, p')
    requires q'.objs == q.objs && q'.log == q.log && SameOutput(q, q')
    ensures AlikePeer(p', q', exact)
  {
    hide AlikeObjects, AlikeLogs, Heard;
  }

  /** Storing a peer with a changed status. */
  lemma StatusSet(a: Net, b: Net, s: Socket, p: Peer, q: Peer, exact: bool)
    requires Alike(a, b, exact) && Sound(a) && Sound(b) && s in a.peers && s in b.peers
    requires OrderInv(p) && p.waiting == a.peers[s].waiting && OrderInv(q) && q.waiting == b.peers[s].waiting
    requires AlikePeer(p, q, exact)
    ensures Alike(SetPeer(a, s, p), SetPeer(b, s, q), exact)
  {
    hide Alike, AlikePeer, OrderInv, Sound;
    SetAlike(a, b, s, p, q, exact);
  }

  ghost predicate AlikeHandled(x: Handled, y: Handled, exact: bool) {
    && Alike(x.net, y.net, exact) && x.ok == y.ok && x.reply.Some? == y.reply.Some?
    && (x.reply.Some? ==> AlikeBuckets(x.reply.value, y.reply.value, exact))
  }

  lemma TouchedAlike(o: Object, p: Object, ta: nat, tb: nat, exact: bool)
    requires AlikeObject(o, p, exact) && (exact ==> (ta > 0 <==> tb > 0))
    ensures AlikeObject(o.(lastreq := ta), p.(lastreq := tb), exact)
    ensures Lacking(o.(lastreq := ta)) == Lacking(p.(lastreq := tb))
  {
    assert Timeless(o.(lastreq := ta)) == Timeless(o) && Timeless(p.(lastreq := tb)) == Timeless(p);
    assert Timeless(o).rawdata == o.rawdata && Timeless(o).flags == o.flags;
    assert Timeless(p).rawdata == p.rawdata && Timeless(p).flags == p.flags;
  }

  lemma AnswerAlike(a: Net, b: Net, s: Socket, name: Blob, k: Socket, ta: nat, tb: nat, exact: bool)
    requires Alike(a, b, exact) && Sound(a) && Sound(b) && s in a.peers && s in b.peers
    requires k in a.peers && name in a.peers[k].objs && k in b.peers && name in b.peers[k].objs
    requires exact ==> (ta > 0 <==> tb > 0)
    ensures AlikeHandled(AnswerFrom(a, s, name, k, ta), AnswerFrom(b, s, name, k, tb), exact)
  {
    hide Alike, Sound, AlikeObject, AlikeBuckets, Cache, Deferred, Lacking, AnswerFrom;
    ObjectAlike(a, b, k, name, exact);
    var o, p := a.peers[k].objs[name].(lastreq := ta), b.peers[k].objs[name].(lastreq := tb);
    TouchedAlike(a.peers[k].objs[name], b.peers[k].objs[name], ta, tb, exact);
    AnswerDeferred(a, s, name, k, ta);
    AnswerDeferred(b, s, name, k, tb);
    CacheAlike(a, b, k, name, o, p, exact);
    if Lacking(o) {
      DeferredAlike(Cache(a, k, name, o), Cache(b, k, name, p), s, name, k, ta, tb, exact);
    } else {
      Weaker(o, p, exact);
      ReplyAlike(Some(o), Some(p), name, exact);
    }
  }

  lemma Weaker(o: Object, p: Object, exact: bool)
    requires AlikeObject(o, p, exact)
    ensures AlikeObject(o, p, false)
  {
  }

  lemma GetAlike(a: Net, b: Net, s: Socket, name: Blob, ta: nat, tb: nat, exact: bool)
    requires Alike(a, b, exact) && Sound(a) && Sound(b) && s in a.peers && s in b.peers
    requires exact && FindOwner(a.peers, name).Some? ==> (ta > 0 <==> tb > 0)
    ensures AlikeHandled(HandleGet(a, s, name, ta), HandleGet(b, s, name, tb), exact)
  {
    hide Alike, Sound, FindOwner, Asked, AnswerFrom, AlikeBuckets;
    AskedAlike(a, b, s, name, exact);
    AskedOwner(a, s, name);
    var n, m := Asked(a, s, name), Asked(b, s, name);
    OwnerAlike(n, m, name, exact);
    match FindOwner(n.peers, name)
    case None => ReplyAlike(None, None, name, exact);
    case Some(k) => AnswerAlike(n, m, s, name, k, ta, tb, exact);
  }

  lemma SourceAlike(a: Net, b: Net, s: Socket, exact: bool)
    requires Alike(a, b, exact) && Sound(a) && Sound(b) && s in a.peers && s in b.peers
    ensures OrderInv(a.peers[s]) && OrderInv(b.peers[s])
    ensures Alike(SetPeer(a, s, AsSource(a.peers[s])), SetPeer(b, s, AsSource(b.peers[s])), exact)
  {
    SoundOrder(a, s);
    SoundOrder(b, s);
    PeerAlike(a, b, s, exact);
    StatusAlike(a.peers[s], b.peers[s], AsSource(a.peers[s]), AsSource(b.peers[s]), exact);
    hide Alike, Sound, AlikePeer, Indexes;
    StatusSet(a, b, s, AsSource(a.peers[s]), AsSource(b.peers[s]), exact);
  }

  lemma ReceivedAlike(o: Object, p: Object, m: Message, exact: bool)
    requires m.ObjectReply? && AlikeObject(o, p, exact)
    ensures AlikeObject(ReceivedObject(o, m), ReceivedObject(p, m), exact)
  {
    assert Timeless(o).rawdata == o.rawdata && Timeless(p).rawdata == p.rawdata;
    assert Timeless(ReceivedObject(o, m)) == ReceivedObject(Timeless(o), m);
    assert Timeless(ReceivedObject(p, m)) == ReceivedObject(Timeless(p), m);
  }

  lemma CachedAlike(a: Net, b: Net, s: Socket, name: Blob, exact: bool)
    requires Alike(a, b, exact) && s in a.peers && s in b.peers
    ensures AlikeObject(CachedOrFresh(a.peers[s], name), CachedOrFresh(b.peers[s], name), exact)
  {
    ObjectAlike(a, b, s, name, exact);
    hide Alike;
  }

  /** Whether a summary makes the node ask for the data again. */
  predicate Refreshes(o: Object, m: Message)
    requires m.ObjectReply?
  {
    o.lastreq > 0 && m.data == [] && !o.flags.IsScalar()
  }

  lemma RefreshAlike(a: Net, b: Net, s: Socket, m: Message, o: Object, p: Object, exact: bool)
    requires Alike(a, b, exact) && Sound(a) && Sound(b) && s in a.peers && s in b.peers
    requires m.ObjectReply? && AlikeObject(o, p, exact)
    ensures Alike(if Refreshes(o, m) then Requested(a, s, m.name) else a,
                  if Refreshes(p, m) then Requested(b, s, m.name) else b, exact)
  {
    assert Timeless(o).flags == o.flags && Timeless(p).flags == p.flags;
    assert exact ==> Refreshes(o, m) == Refreshes(p, m);
    hide Alike, WaitInv, OrdersInv, AlikeObject, RequestObjectData;
    if Refreshes(o, m) && Refreshes(p, m) {
      RequestAlike(a, b, s, m.name, exact);
    } else if Refreshes(o, m) || Refreshes(p, m) {
      RequestMakesNoDifference(a, b, s, m.name);
    }
  }

  lemma ObjectMessageAlike(a: Net, b: Net, s: Socket, m: Message, exact: bool)
    requires Alike(a, b, exact) && Sound(a) && Sound(b) && s in a.peers && s in b.peers && m.ObjectReply?
    ensures Alike(HandleObject(a, s, m), HandleObject(b, s, m), exact)
  {
    hide Alike, AlikeObject, Sound, Indexes, SetPeer, Cache, Requested, Released, ReceivedObject, CachedOrFresh;
    SourceAlike(a, b, s, exact);
    var a0, b0 := SetPeer(a, s, AsSource(a.peers[s])), SetPeer(b, s, AsSource(b.peers[s]));
    hide AsSource;
    CachedAlike(a0, b0, s, m.name, exact);
    ReceivedAlike(CachedOrFresh(a0.peers[s], m.name), CachedOrFresh(b0.peers[s], m.name), m, exact);
    var o, p := ReceivedObject(CachedOrFresh(a0.peers[s], m.name), m),
                ReceivedObject(CachedOrFresh(b0.peers[s], m.name), m);
    CacheAlike(a0, b0, s, m.name, o, p, exact);
    var a1, b1 := Cache(a0, s, m.name, o), Cache(b0, s, m.name, p);
    RefreshAlike(a1, b1, s, m, o, p, exact);
    var a2, b2 := if Refreshes(o, m) then Requested(a1, s, m.name) else a1,
                  if Refreshes(p, m) then Requested(b1, s, m.name) else b1;
    Weaker(o, p, exact);
    ReleasedAlike(a2, b2, m.name, Some(o), Some(p), exact);
    assert HandleObject(a, s, m) == if m.data != [] then Released(a2, m.name, Some(o)) else a2;
    assert HandleObject(b, s, m) == if m.data != [] then Released(b2, m.name, Some(p)) else b2;
    hide HandleObject;
  }

  lemma LiveAlike(x: map<Blob, Object>, y: map<Blob, Object>, exact: bool)
    requires AlikeObjects(x, y, exact)
    ensures LiveNames(x) == LiveNames(y)
  {
    assert forall n | n in x :: Timeless(x[n]).flags == x[n].flags && Timeless(y[n]).flags == y[n].flags;
  }

  lemma RestrictAlike(p: Peer, q: Peer, keep: set<Blob>, exact: bool)
    requires AlikePeer(p, q, exact)
    ensures AlikePeer(Restrict(p, keep), Restrict(q, keep), exact)
  {
    hide AlikeObject, AlikeLogs, Heard, KeepIn;
  }

  lemma PurgedAlike(a: Net, b: Net, s: Socket, exact: bool)
    requires Alike(a, b, exact) && Sound(a) && Sound(b) && s in a.peers && s in b.peers
    ensures Alike(Purged(a, s), Purged(b, s), exact)
  {
    SoundOrder(a, s);
    SoundOrder(b, s);
    PeerAlike(a, b, s, exact);
    LiveAlike(a.peers[s].objs, b.peers[s].objs, exact);
    RestrictOrder(a.peers[s], LiveNames(a.peers[s].objs));
    RestrictOrder(b.peers[s], LiveNames(b.peers[s].objs));
    hide Alike, Sound, AlikePeer, Indexes, LiveNames, Restrict;
    RestrictAlike(a.peers[s], b.peers[s], LiveNames(a.peers[s].objs), exact);
    StatusSet(a, b, s, PurgeDeadObjects(a.peers[s]), PurgeDeadObjects(b.peers[s]), exact);
  }

  lemma DeadAlike(o: Object, p: Object, exact: bool)
    requires AlikeObject(o, p, exact)
    ensures AlikeObject(o.(flags := o.flags.(dead := true)), p.(flags := p.flags.(dead := true)), exact)
  {
    assert Timeless(o).flags == o.flags && Timeless(p).flags == p.flags;
    assert Timeless(o.(flags := o.flags.(dead := true))) == Timeless(o).(flags := o.flags.(dead := true));
    assert Timeless(p.(flags := p.flags.(dead := true))) == Timeless(p).(flags := p.flags.(dead := true));
  }

  lemma NoneMessageAlike(a: Net, b: Net, s: Socket, name: Blob, exact: bool)
    requires Alike(a, b, exact) && Sound(a) && Sound(b) && s in a.peers && s in b.peers
    ensures Alike(HandleNone(a, s, name), HandleNone(b, s, name), exact)
  {
    hide Alike, AlikeObject, Sound, Indexes, SetPeer, Cache, Purged, Released;
    SourceAlike(a, b, s, exact);
    var a0, b0 := SetPeer(a, s, AsSource(a.peers[s])), SetPeer(b, s, AsSource(b.peers[s]));
    hide AsSource;
    ObjectAlike(a0, b0, s, name, exact);
    if name in a0.peers[s].objs {
      var o, p := a0.peers[s].objs[name], b0.peers[s].objs[name];
      DeadAlike(o, p, exact);
      var o', p' := o.(flags := o.flags.(dead := true)), p.(flags := p.flags.(dead := true));
      CacheAlike(a0, b0, s, name, o', p', exact);
      PurgedAlike(Cache(a0, s, name, o'), Cache(b0, s, name, p'), s, exact);
      var a1, b1 := Purged(Cache(a0, s, name, o'), s), Purged(Cache(b0, s, name, p'), s);
      ReleasedAlike(a1, b1, name, None, None, exact);
      assert HandleNone(a, s, name) == Released(a1, name, None) && HandleNone(b, s, name) == Released(b1, name, None);
      hide HandleNone;
    } else {
      ReleasedAlike(a0, b0, name, None, None, exact);
      assert HandleNone(a, s, name) == Released(a0, name, None) && HandleNone(b, s, name) == Released(b0, name, None);
      hide HandleNone;
    }
  }

  /** The two clocks forget the same requests. */
  ghost predicate SameForgotten(x: map<Blob, Object>, y: map<Blob, Object>, ta: nat, tb: nat) {
    forall n | n in x && n in y :: Forgotten(x[n], ta) <==> Forgotten(y[n], tb)
  }

  lemma MarkAlike(o: Object, p: Object, ta: nat, tb: nat, exact: bool)
    requires AlikeObject(o, p, exact) && (exact ==> (Forgotten(o, ta) <==> Forgotten(p, tb)))
    ensures AlikeObject(MarkDead(o, ta), MarkDead(p, tb), exact)
  {
    assert Timeless(o).flags == o.flags && Timeless(p).flags == p.flags;
    assert Timeless(MarkDead(o, ta)) == Timeless(o).(flags := o.flags.(dead := true));
    assert Timeless(MarkDead(p, tb)) == Timeless(p).(flags := p.flags.(dead := true));
  }

  lemma MarkedAlike(p: Peer, q: Peer, ta: nat, tb: nat, exact: bool)
    requires AlikePeer(p, q, exact) && (exact ==> SameForgotten(p.objs, q.objs, ta, tb))
    ensures AlikePeer(MarkObjectsDead(p, ta), MarkObjectsDead(q, tb), exact)
  {
    hide AlikeObject, AlikeLogs, Heard, MarkDead, Forgotten;
    forall n | n in p.objs
      ensures AlikeObject(MarkDead(p.objs[n], ta), MarkDead(q.objs[n], tb), exact)
    {
      MarkAlike(p.objs[n], q.objs[n], ta, tb, exact);
    }
  }

  lemma BeginAlike(a: Net, b: Net, s: Socket, full: bool, ta: nat, tb: nat, exact: bool)
    requires Alike(a, b, exact) && Sound(a) && Sound(b) && s in a.peers && s in b.peers
    requires exact && full ==> SameForgotten(a.peers[s].objs, b.peers[s].objs, ta, tb)
    ensures Alike(HandleListBegin(a, s, full, ta), HandleListBegin(b, s, full, tb), exact)
  {
    if full {
      MarkedOrder(a, s, ta);
      MarkedOrder(b, s, tb);
      PeerAlike(a, b, s, exact);
      hide Alike, Sound, AlikePeer, Indexes, SameForgotten, MarkDead;
      MarkedAlike(a.peers[s], b.peers[s], ta, tb, exact);
      StatusSet(a, b, s, MarkObjectsDead(a.peers[s], ta), MarkObjectsDead(b.peers[s], tb), exact);
    }
  }

  lemma FlaggedAlike(a: Net, b: Net, exact: bool)
    requires Alike(a, b, exact) && Sound(a) && Sound(b)
    ensures Alike(Flagged(a), Flagged(b), exact)
  {
    hide AlikePeer, Sound, SameWaits;
  }

  lemma CountAlike(a: Net, b: Net, s: Socket, exact: bool)
    requires Alike(a, b, exact) && Sound(a) && Sound(b) && s in a.peers && s in b.peers
    ensures Alike(CountUpdate(a, s), CountUpdate(b, s), exact)
  {
    SoundOrder(a, s);
    SoundOrder(b, s);
    PeerAlike(a, b, s, exact);
    StatusAlike(a.peers[s], b.peers[s], Counted(a.peers[s]), Counted(b.peers[s]), exact);
    hide Alike, Sound, AlikePeer, Indexes;
    StatusSet(a, b, s, Counted(a.peers[s]), Counted(b.peers[s]), exact);
  }

  lemma EndAlike(a: Net, b: Net, s: Socket, full: bool, exact: bool)
    requires Alike(a, b, exact) && Sound(a) && Sound(b) && s in a.peers && s in b.peers
    ensures Alike(HandleListEnd(a, s, full), HandleListEnd(b, s, full), exact)
  {
    hide Alike, Sound, Purged, CountUpdate, Flagged;
    PurgedAlike(a, b, s, exact);
    var a0, b0 := if full then Purged(a, s) else a, if full then Purged(b, s) else b;
    FlaggedAlike(a0, b0, exact);
    FlaggedPeers(a0);
    FlaggedPeers(b0);
    CountAlike(Flagged(a0), Flagged(b0), s, exact);
  }

  lemma WantsAlike(a: Net, b: Net, s: Socket, exact: bool)
    requires Alike(a, b, exact) && Sound(a) && Sound(b) && s in a.peers && s in b.peers
    ensures OrderInv(a.peers[s]) && OrderInv(b.peers[s])
    ensures Alike(SetPeer(a, s, WantsUpdates(a.peers[s])), SetPeer(b, s, WantsUpdates(b.peers[s])), exact)
  {
    SoundOrder(a, s);
    SoundOrder(b, s);
    PeerAlike(a, b, s, exact);
    StatusAlike(a.peers[s], b.peers[s], WantsUpdates(a.peers[s]), WantsUpdates(b.peers[s]), exact);
    hide Alike, Sound, AlikePeer, Indexes;
    StatusSet(a, b, s, WantsUpdates(a.peers[s]), WantsUpdates(b.peers[s]), exact);
  }

  // ----- one message

  /** The two clocks agree on what a message depends on: a full list on the
      requests that are too old, a request on whether the time counts as one. */
  ghost predicate AgreeAt(a: Net, b: Net, s: Socket, m: Message, ta: nat, tb: nat)
    requires s in a.peers && s in b.peers
  {
    match m
    case ListBegin(full) => full ==> SameForgotten(a.peers[s].objs, b.peers[s].objs, ta, tb)
    case GetObject(name) => FindOwner(a.peers, name).Some? ==> (ta > 0 <==> tb > 0)
    case _ => true
  }

  lemma MessageAlike(a: Net, b: Net, s: Socket, d: Blob, ta: nat, tb: nat, exact: bool)
    requires Alike(a, b, exact) && Sound(a) && Sound(b) && s in a.peers && s in b.peers && |d| >= 8
    requires exact ==> AgreeAt(a, b, s, Decode(d), ta, tb)
    ensures AlikeHandled(OnMessage(a, s, d, ta), OnMessage(b, s, d, tb), exact)
  {
    hide Alike, Sound, Decode, AlikeBuckets, SetPeer, WantsUpdates, Indexes, AllObjects, SameForgotten, FindOwner;
    hide HandleGet, HandleObject, HandleNone, HandleListBegin, HandleListEnd;
    match Decode(d)
    case UpdateMe => WantsAlike(a, b, s, exact);
    case ListObjects => AllObjectsAlike(a, b, exact);
    case GetObject(name) => GetAlike(a, b, s, name, ta, tb, exact);
    case ListBegin(full) => BeginAlike(a, b, s, full, ta, tb, exact);
    case ListEnd(full) => EndAlike(a, b, s, full, exact);
    case ObjectReply(_, _, _, _, _, _) => ObjectMessageAlike(a, b, s, Decode(d), exact);
    case NoneReply(name) => NoneMessageAlike(a, b, s, name, exact);
    case Corrupt =>
  }

  /** Messages take such states to such states, the exact ones if the clocks
      agree. */
  lemma DispatchAlike(a: Net, b: Net, s: Socket, d: Blob, ta: nat, tb: nat, exact: bool)
    requires Alike(a, b, exact) && Sound(a) && Sound(b) && s in a.peers && s in b.peers && |d| >= 8
    requires exact ==> AgreeAt(a, b, s, Decode(d), ta, tb)
    ensures Alike(Dispatch(a, s, d, ta), Dispatch(b, s, d, tb), exact)
  {
    hide Alike, Sound, Decode, AlikeBuckets, OnMessage, Queue, AgreeAt;
    MessageAlike(a, b, s, d, ta, tb, exact);
    var x, y := OnMessage(a, s, d, ta), OnMessage(b, s, d, tb);
    if x.reply.Some? {
      QueueAlike(x.net, y.net, s, x.reply.value, y.reply.value, exact);
    }
  }
}
