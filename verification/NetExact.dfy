/** Each message in full: what it queues, and to whom, and which flags and
    counters it changes. */
module NetExact {
  import opened Bytes
  import opened Wire
  import opened Messages
  import opened Options
  import opened NetState
  import opened NetSteps
  import opened NetWaits
  import opened NetSync
  import opened NetRelay
  import opened NetFlush
  import opened NetEffects

  // ----- what is queued

  /** One reply for each wait of t for name. */
  function Replies(ws: seq<Wait>, name: Blob, o: Option<Object>, t: Socket): seq<Queued> {
    seq(|Repliers(ws, name, t)|, _ => Reply(name, o))
  }

  /** What GET_OBJECT makes the node queue for an object of peer k. */
  function Answer(name: Blob, o: Object, k: Socket, s: Socket, now: nat, t: Socket): seq<Queued> {
    if Lacking(o) then
      if t == k then [Request(name)] else []
    else
      if t == s then [Reply(name, Some(o.(lastreq := now)))] else []
  }

  /** What a message from s makes the node queue to peer t. */
  ghost function Sends(net: Net, s: Socket, m: Message, now: nat, t: Socket): seq<Queued>
    requires Sound(net) && s in net.peers && t in net.peers
  {
    match m
    case ListObjects => if t == s then [Listing(AllObjects(net))] else []
    case GetObject(name) =>
      var k := FindOwner(net.peers, name);
      if k.None? then if t == s then [Reply(name, None)] else []
      else Answer(name, net.peers[k.value].objs[name], k.value, s, now, t)
    case ObjectReply(flags, _, _, name, data, _) =>
      var o := CachedOrFresh(net.peers[s], name);
      if data != [] then Replies(net.waiting, name, Some(ReceivedObject(o, m)), t)
      else if t == s && o.lastreq > 0 && !flags.IsScalar() then [Request(name)]
      else []
    case NoneReply(name) => Replies(net.waiting, name, None, t)
    case _ => []
  }

  /** The order in which the cache of t is visited afterwards. */
  function OrderAfter(net: Net, s: Socket, m: Message, t: Socket): seq<Blob>
    requires s in net.peers && t in net.peers
  {
    var p := net.peers[t];
    match m
    case ObjectReply(_, _, _, name, _, _) => if t == s && name !in p.objs then p.order + [name] else p.order
    case ListEnd(full) => if t == s && full then KeepIn(p.order, LiveNames(p.objs)) else p.order
    case NoneReply(name) =>
      if t == s && name in p.objs then KeepIn(p.order, LiveNames(Died(p.objs, name))) else p.order
    case _ => p.order
  }

  /** All of a peer but its cache and its counter of waits: own says that the
      message is from it. */
  ghost predicate Changed(p: Peer, q: Peer, own: bool, m: Message, order: seq<Blob>, sent: seq<Queued>) {
    q == Plus(p, sent).(
      objs := q.objs, waiting := q.waiting, order := order,
      source := p.source || (own && (m.ObjectReply? || m.NoneReply?)),
      update := p.update || (own && m.UpdateMe?),
      updates := if own && m.ListEnd? then p.updates + 1 else p.updates,
      asked := if own && m.GetObject? then p.asked + [m.name] else p.asked)
  }

  ghost predicate Exactly(net: Net, r: Net, s: Socket, m: Message, now: nat)
    requires Sound(net) && s in net.peers
  {
    && r.peers.Keys == net.peers.Keys
    && r.flush == (net.flush || m.ListEnd?) && r.wakeup == net.wakeup && r.nextFlush == net.nextFlush
    && forall t | t in net.peers ::
         Changed(net.peers[t], r.peers[t], t == s, m, OrderAfter(net, s, m, t), Sends(net, s, m, now, t))
  }

  // ----- steps

  /** More output for a peer. */
  function Plus(p: Peer, sent: seq<Queued>): Peer {
    p.(log := p.log + sent, sendq := p.sendq + Buckets(sent))
  }

  lemma PlusNone(p: Peer)
    ensures Plus(p, []) == p
  {
  }

  lemma PlusOne(p: Peer, q: Queued)
    ensures Plus(p, [q]) == Enqueue(p, q)
  {
    hide Data;
    assert [q][1..] == [] && Buckets([q]) == [Data(q)];
  }

  ghost predicate SameFlags(net: Net, r: Net) {
    r.peers.Keys == net.peers.Keys && r.flush == net.flush && r.wakeup == net.wakeup && r.nextFlush == net.nextFlush
  }

  lemma ReleasedExactly(net: Net, name: Blob, o: Option<Object>, t: Socket)
    requires Sound(net) && t in net.peers
    ensures var r := Released(net, name, o);
      && SameFlags(net, r)
      && r.peers[t] == Plus(net.peers[t], Replies(net.waiting, name, o, t)).(waiting := r.peers[t].waiting)
  {
    var verdict := (w: Wait) => if w.name == name then Release(o) else Keep;
    SweepReplies(net, 0, verdict, t);
    NameReplies(net.waiting, name, o, t);
    assert net.waiting[0..] == net.waiting;
    assert OnlyQueues(net, ReleaseWaiters(net, name, o));
    hide WaitInv, OrdersInv, Sweep, Buckets, Repliers, RepliesTo;
  }

  lemma DeferredExactly(net: Net, s: Socket, name: Blob, k: Socket, now: nat, t: Socket)
    requires Sound(net) && s in net.peers && k in net.peers && t in net.peers
    ensures var r, p := Deferred(net, s, name, k, now), net.peers[t];
      SameFlags(net, r)
      && r.peers[t] == (if t == k then Enqueue(p, Request(name)) else p).(waiting := r.peers[t].waiting)
  {
    hide WaitInv, OrdersInv, WaitNames, Data;
    assert Deferred(net, s, name, k, now) == WaitForData(net, s, name, k, now);
    hide Deferred;
  }

  // ----- GET_OBJECT

  lemma AskedPeer(p: Peer, name: Blob, own: bool, sent: seq<Queued>, q: Peer)
    requires q == Plus(if own then AskedBy(p, name) else p, sent).(objs := q.objs, waiting := q.waiting)
    ensures Changed(p, q, own, GetObject(name), p.order, sent)
  {
    hide Buckets;
  }

  lemma UnknownExactly(net: Net, s: Socket, name: Blob, t: Socket)
    requires Sound(net) && s in net.peers && t in net.peers
    ensures var r := Queue(Asked(net, s, name), s, Reply(name, None));
      && SameFlags(net, r)
      && Changed(net.peers[t], r.peers[t], t == s, GetObject(name), net.peers[t].order,
                 if t == s then [Reply(name, None)] else [])
  {
    hide Sound, Asked, Queue, Data, Buckets, Enqueue, Changed, Plus, AskedBy;
    AskedIs(net, s, name);
    var n := Asked(net, s, name);
    QueueIs(n, s, Reply(name, None));
    PlusNone(n.peers[t]);
    PlusOne(n.peers[t], Reply(name, None));
    AskedPeer(net.peers[t], name, t == s, if t == s then [Reply(name, None)] else [],
              Queue(n, s, Reply(name, None)).peers[t]);
  }

  lemma TouchedOrder(p: Peer, name: Blob, o: Object)
    requires name in p.objs
    ensures PutObject(p, name, o) == p.(objs := p.objs[name := o])
  {
  }

  lemma KnownExactly(net: Net, s: Socket, name: Blob, k: Socket, now: nat, t: Socket)
    requires Sound(net) && s in net.peers && t in net.peers && k in net.peers && name in net.peers[k].objs
    ensures var n := Asked(net, s, name);
      && name in n.peers[k].objs
      && var h := AnswerFrom(n, s, name, k, now);
         var r := if h.reply.Some? then Queue(h.net, s, h.reply.value) else h.net;
         && SameFlags(net, r)
         && Changed(net.peers[t], r.peers[t], t == s, GetObject(name), net.peers[t].order,
                    Answer(name, net.peers[k].objs[name], k, s, now, t))
  {
    hide Sound, Asked, AnswerFrom, Cache, Deferred, Queue, Data, Buckets, Enqueue, Changed, Plus, Lacking, PutObject;
    AskedIs(net, s, name);
    var n := Asked(net, s, name);
    var o := n.peers[k].objs[name].(lastreq := now);
    StillLacking(n.peers[k].objs[name], now);
    AnswerDeferred(n, s, name, k, now);
    CacheIs(n, k, name, o);
    TouchedOrder(n.peers[k], name, o);
    var c := Cache(n, k, name, o);
    var sent := Answer(name, net.peers[k].objs[name], k, s, now, t);
    PlusNone(c.peers[t]);
    if Lacking(o) {
      DeferredExactly(c, s, name, k, now, t);
      PlusOne(c.peers[t], Request(name));
      PlusKeeps(c.peers[t], n.peers[t], sent);
      AskedPeer(net.peers[t], name, t == s, sent, Deferred(c, s, name, k, now).peers[t]);
    } else {
      QueueIs(c, s, Reply(name, Some(o)));
      PlusOne(c.peers[t], Reply(name, Some(o)));
      PlusKeeps(c.peers[t], n.peers[t], sent);
      AskedPeer(net.peers[t], name, t == s, sent, Queue(c, s, Reply(name, Some(o))).peers[t]);
    }
  }

  lemma PlusKeeps(p: Peer, q: Peer, sent: seq<Queued>)
    requires p == q.(objs := p.objs)
    ensures Plus(p, sent) == Plus(q, sent).(objs := p.objs)
    ensures Plus(p, sent).waiting == p.waiting && Plus(q, sent).objs == q.objs
  {
  }

  lemma StillLacking(o: Object, now: nat)
    ensures Lacking(o.(lastreq := now)) == Lacking(o)
  {
  }

  lemma GetExactly(net: Net, s: Socket, d: Blob, name: Blob, now: nat)
    requires Sound(net) && s in net.peers && |d| >= 8 && Decode(d) == GetObject(name)
    ensures Exactly(net, Dispatch(net, s, d, now), s, Decode(d), now)
  {
    hide Sound, FindOwner, Asked, AnswerFrom, Queue, Lacking, Decode, Changed, SameFlags;
    var h := HandleGet(net, s, name, now);
    MessageIsGet(net, s, d, name, now);
    var r := Dispatch(net, s, d, now);
    assert r == if h.reply.Some? then Queue(h.net, s, h.reply.value) else h.net;
    hide Dispatch, OnMessage;
    AskedOwner(net, s, name);
    var k := FindOwner(net.peers, name);
    forall t | t in net.peers
      ensures SameFlags(net, r)
      ensures Changed(net.peers[t], r.peers[t], t == s, Decode(d), OrderAfter(net, s, Decode(d), t),
                      Sends(net, s, Decode(d), now, t))
    {
      if k.None? {
        UnknownExactly(net, s, name, t);
      } else {
        KnownExactly(net, s, name, k.value, now, t);
      }
    }
    FlagsFrom(net, r, s);
  }

  lemma FlagsFrom(net: Net, r: Net, s: Socket)
    requires s in net.peers && SameFlags(net, r)
    ensures r.peers.Keys == net.peers.Keys
    ensures r.flush == net.flush && r.wakeup == net.wakeup && r.nextFlush == net.nextFlush
  {
  }

  // ----- OBJECT and NONE

  /** The peer whose object has come. */
  lemma ObjectPeer(p: Peer, m: Message, o: Object, own: bool, order: seq<Blob>, sent: seq<Queued>, q: Peer)
    requires m.ObjectReply? && order == if own && m.name !in p.objs then p.order + [m.name] else p.order
    requires q == Plus(if own then PutObject(AsSource(p), m.name, o) else p, sent).(waiting := q.waiting)
    ensures Changed(p, q, own, m, order, sent)
  {
    hide Buckets;
  }

  /** The node with the object stored. */
  function Stored(net: Net, s: Socket, m: Message): Net
    requires s in net.peers && m.ObjectReply?
  {
    var o := ReceivedObject(CachedOrFresh(net.peers[s], m.name), m);
    Update(net, s, PutObject(AsSource(net.peers[s]), m.name, o))
  }

  lemma StoredIs(net: Net, s: Socket, m: Message)
    requires Sound(net) && s in net.peers && m.ObjectReply?
    ensures var cached := CachedOrFresh(net.peers[s], m.name);
      var o := ReceivedObject(cached, m);
      var n := Stored(net, s, m);
      && Sound(n)
      && HandleObject(net, s, m) ==
         if m.data != [] then Released(n, m.name, Some(o))
         else if cached.lastreq > 0 && !m.flags.IsScalar() then Update(n, s, Enqueue(n.peers[s], Request(m.name)))
         else n
  {
    SourceIs(net, s);
    var n0 := SetPeer(net, s, AsSource(net.peers[s]));
    assert CachedOrFresh(n0.peers[s], m.name) == CachedOrFresh(net.peers[s], m.name);
    var cached := CachedOrFresh(net.peers[s], m.name);
    var o := ReceivedObject(cached, m);
    assert o.lastreq == cached.lastreq && o.flags.IsScalar() == m.flags.IsScalar();
    hide Sound, OrderInv, SetPeer, Cache, Requested, Released, ReceivedObject, CachedOrFresh, PutObject, Enqueue;
    CacheIs(n0, s, m.name, o);
    UpdatedTwice(net, s, AsSource(net.peers[s]), PutObject(AsSource(net.peers[s]), m.name, o));
    RequestedIs(Cache(n0, s, m.name, o), s, m.name);
  }

  lemma ObjectExactly(net: Net, s: Socket, m: Message, now: nat, t: Socket)
    requires Sound(net) && s in net.peers && t in net.peers && m.ObjectReply?
    ensures var r := HandleObject(net, s, m);
      SameFlags(net, r)
      && Changed(net.peers[t], r.peers[t], t == s, m, OrderAfter(net, s, m, t), Sends(net, s, m, now, t))
  {
    hide Sound, HandleObject, Released, ReceivedObject, CachedOrFresh, Replies, PutObject, AsSource;
    hide Enqueue, Plus, Changed, Buckets;
    StoredIs(net, s, m);
    var n := Stored(net, s, m);
    var o := ReceivedObject(CachedOrFresh(net.peers[s], m.name), m);
    ReleasedExactly(n, m.name, Some(o), t);
    PlusNone(n.peers[t]);
    PlusOne(n.peers[t], Request(m.name));
    ObjectPeer(net.peers[t], m, o, t == s, OrderAfter(net, s, m, t), Sends(net, s, m, now, t),
               HandleObject(net, s, m).peers[t]);
  }

  /** The peer from which NONE has come. */
  lemma NonePeer(p: Peer, name: Blob, own: bool, order: seq<Blob>, sent: seq<Queued>, q: Peer)
    requires q == Plus(if own then AsSource(p) else p, sent).(objs := q.objs, order := order, waiting := q.waiting)
    ensures Changed(p, q, own, NoneReply(name), order, sent)
  {
    hide Buckets;
  }

  lemma PurgedIs(net: Net, s: Socket)
    requires Sound(net) && s in net.peers
    ensures Purged(net, s) == Update(net, s, PurgeDeadObjects(net.peers[s]))
  {
    RestrictOrder(net.peers[s], LiveNames(net.peers[s].objs));
    hide Sound, OrderInv, Restrict;
  }

  /** The peer without the object that is not there. */
  function WithoutObject(p: Peer, name: Blob): Peer {
    if name !in p.objs then AsSource(p)
    else AsSource(p).(objs := Alive(Died(p.objs, name)), order := KeepIn(p.order, LiveNames(Died(p.objs, name))))
  }

  lemma PurgedPeer(p: Peer, name: Blob)
    requires name in p.objs
    ensures var o := p.objs[name];
      PurgeDeadObjects(PutObject(AsSource(p), name, o.(flags := o.flags.(dead := true)))) == WithoutObject(p, name)
  {
    hide KeepIn;
    var d := Died(p.objs, name);
    assert (map n | n in d && n in LiveNames(d) :: d[n]) == Alive(d);
  }

  lemma RemovedIs(net: Net, s: Socket, name: Blob)
    requires Sound(net) && s in net.peers
    ensures var n := Update(net, s, WithoutObject(net.peers[s], name));
      Sound(n) && HandleNone(net, s, name) == Released(n, name, None)
  {
    SourceIs(net, s);
    var p := net.peers[s];
    var n0 := SetPeer(net, s, AsSource(p));
    hide Sound, OrderInv, SetPeer, Cache, Purged, Released, PutObject, PurgeDeadObjects, KeepIn, Alive;
    if name in p.objs {
      var o := p.objs[name].(flags := p.objs[name].flags.(dead := true));
      CacheIs(n0, s, name, o);
      PurgedIs(Cache(n0, s, name, o), s);
      PurgedPeer(p, name);
      UpdatedTwice(net, s, AsSource(p), PutObject(AsSource(p), name, o));
      UpdatedTwice(net, s, PutObject(AsSource(p), name, o), WithoutObject(p, name));
    }
  }

  lemma NoneExactly(net: Net, s: Socket, name: Blob, now: nat, t: Socket)
    requires Sound(net) && s in net.peers && t in net.peers
    ensures var r, m := HandleNone(net, s, name), NoneReply(name);
      SameFlags(net, r)
      && Changed(net.peers[t], r.peers[t], t == s, m, OrderAfter(net, s, m, t), Sends(net, s, m, now, t))
  {
    hide Sound, HandleNone, Released, Replies, Plus, Changed, Buckets, KeepIn, Alive;
    RemovedIs(net, s, name);
    var n := Update(net, s, WithoutObject(net.peers[s], name));
    ReleasedExactly(n, name, None, t);
    hide AsSource;
    var sent := Replies(net.waiting, name, None, t);
    WithoutOutput(net.peers[s], name, sent);
    PlusKeepsOrder(net.peers[t], sent);
    NonePeer(net.peers[t], name, t == s, OrderAfter(net, s, NoneReply(name), t), sent,
             HandleNone(net, s, name).peers[t]);
  }

  lemma PlusKeepsOrder(p: Peer, sent: seq<Queued>)
    ensures Plus(p, sent).order == p.order && Plus(p, sent).objs == p.objs
  {
  }

  lemma WithoutOutput(p: Peer, name: Blob, sent: seq<Queued>)
    ensures var q := WithoutObject(p, name);
      Plus(q, sent) == Plus(AsSource(p), sent).(objs := q.objs, order := q.order)
  {
    hide Alive, KeepIn, LiveNames, Died;
  }

  // ----- lists and subscriptions

  lemma BeginIs(net: Net, s: Socket, full: bool, now: nat)
    requires Sound(net) && s in net.peers
    ensures HandleListBegin(net, s, full, now) ==
      if full then Update(net, s, MarkObjectsDead(net.peers[s], now)) else net
  {
    MarkedOrder(net, s, now);
    hide Sound, OrderInv, MarkDead;
  }

  lemma BeginPeer(p: Peer, full: bool, now: nat, own: bool, q: Peer)
    requires q == if own && full then MarkObjectsDead(p, now) else p
    ensures Changed(p, q, own, ListBegin(full), p.order, [])
  {
    PlusNone(p);
  }

  lemma BeginExactly(net: Net, s: Socket, full: bool, now: nat, t: Socket)
    requires Sound(net) && s in net.peers && t in net.peers
    ensures var r, m := HandleListBegin(net, s, full, now), ListBegin(full);
      SameFlags(net, r)
      && Changed(net.peers[t], r.peers[t], t == s, m, OrderAfter(net, s, m, t), Sends(net, s, m, now, t))
  {
    hide Sound, HandleListBegin, Changed, MarkDead;
    BeginIs(net, s, full, now);
    BeginPeer(net.peers[t], full, now, t == s, HandleListBegin(net, s, full, now).peers[t]);
  }

  lemma CountedIs(net: Net, s: Socket)
    requires Sound(net) && s in net.peers
    ensures CountUpdate(net, s) == Update(net, s, Counted(net.peers[s]))
  {
    SoundOrder(net, s);
    hide Sound, OrderInv;
  }

  lemma EndIs(net: Net, s: Socket, full: bool)
    requires Sound(net) && s in net.peers
    ensures var p := net.peers[s];
      HandleListEnd(net, s, full) ==
      Update(net, s, Counted(if full then PurgeDeadObjects(p) else p)).(flush := true)
  {
    hide Sound, CountUpdate, Purged, Counted, PurgeDeadObjects;
    var n := if full then Purged(net, s) else net;
    PurgedIs(net, s);
    CountedIs(Flagged(n), s);
    UpdatedTwice(net, s, PurgeDeadObjects(net.peers[s]), Counted(PurgeDeadObjects(net.peers[s])));
  }

  lemma EndPeer(p: Peer, full: bool, own: bool, q: Peer)
    requires q == if own then Counted(if full then PurgeDeadObjects(p) else p) else p
    ensures Changed(p, q, own, ListEnd(full), if own && full then KeepIn(p.order, LiveNames(p.objs)) else p.order, [])
  {
    PlusNone(p);
    hide KeepIn;
  }

  lemma EndExactly(net: Net, s: Socket, full: bool, now: nat, t: Socket)
    requires Sound(net) && s in net.peers && t in net.peers
    ensures var r, m := HandleListEnd(net, s, full), ListEnd(full);
      && r.peers.Keys == net.peers.Keys && r.flush && r.wakeup == net.wakeup && r.nextFlush == net.nextFlush
      && Changed(net.peers[t], r.peers[t], t == s, m, OrderAfter(net, s, m, t), Sends(net, s, m, now, t))
  {
    hide Sound, HandleListEnd, Changed, Counted, PurgeDeadObjects, KeepIn;
    EndIs(net, s, full);
    EndPeer(net.peers[t], full, t == s, HandleListEnd(net, s, full).peers[t]);
  }

  lemma WantsIs(net: Net, s: Socket)
    requires Sound(net) && s in net.peers
    ensures OrderInv(net.peers[s])
    ensures SetPeer(net, s, WantsUpdates(net.peers[s])) == Update(net, s, net.peers[s].(update := true))
  {
    SoundOrder(net, s);
    hide Sound, OrderInv;
  }

  /** UPDATE_ME, the 8 bytes with type 1, sets the flag of the peer and does
      nothing else. */
  lemma SubscribesExactly(net: Net, s: Socket, d: Blob, now: nat)
    requires Sound(net) && s in net.peers && |d| == 8 && Word(d, 1) == 1
    ensures Dispatch(net, s, d, now) == net.(peers := net.peers[s := net.peers[s].(update := true)])
  {
    WantsIs(net, s);
    hide Sound, SetPeer, WantsUpdates, OrderInv, Word;
  }

  lemma ListsIs(net: Net, s: Socket, d: Blob, now: nat)
    requires Sound(net) && s in net.peers && |d| >= 8 && Word(d, 1) == 2
    ensures Dispatch(net, s, d, now) == Queue(net, s, Listing(AllObjects(net)))
  {
    hide WaitInv, OrderInv, ObjectsOfPeers, SortedKeys, Word, Queue;
  }

  lemma ListPeer(p: Peer, objs: seq<Object>)
    ensures Enqueue(p, Listing(objs)) == p.(log := p.log + [Listing(objs)], sendq := p.sendq + [ListBytes(objs)])
  {
    hide UpdateBytes;
  }

  /** LIST_OBJECTS, any message with type 2, queues the whole list to the peer,
      in one bucket, and does nothing else. */
  lemma ListsExactly(net: Net, s: Socket, d: Blob, now: nat)
    requires Sound(net) && s in net.peers && |d| >= 8 && Word(d, 1) == 2
    ensures var p, objs := net.peers[s], AllObjects(net);
      Dispatch(net, s, d, now) ==
      net.(peers := net.peers[s := p.(log := p.log + [Listing(objs)], sendq := p.sendq + [ListBytes(objs)])])
  {
    hide WaitInv, OrderInv, ObjectsOfPeers, SortedKeys, Word, Queue, Dispatch, Enqueue, UpdateBytes;
    var objs := AllObjects(net);
    ListsIs(net, s, d, now);
    QueueIs(net, s, Listing(objs));
    ListPeer(net.peers[s], objs);
  }

  lemma SubscriberPeer(p: Peer, own: bool, q: Peer)
    requires q == if own then p.(update := true) else p
    ensures Changed(p, q, own, UpdateMe, p.order, [])
  {
    PlusNone(p);
  }

  lemma ListedPeer(p: Peer, own: bool, objs: seq<Object>, q: Peer)
    requires q == if own then Enqueue(p, Listing(objs)) else p
    ensures Changed(p, q, own, ListObjects, p.order, if own then [Listing(objs)] else [])
  {
    PlusNone(p);
    PlusOne(p, Listing(objs));
    hide Data;
  }

  lemma CorruptPeer(p: Peer, own: bool)
    ensures Changed(p, p, own, Corrupt, p.order, [])
  {
    PlusNone(p);
  }

  lemma UpdateMeExactly(net: Net, s: Socket, d: Blob, now: nat)
    requires Sound(net) && s in net.peers && |d| >= 8 && Decode(d).UpdateMe?
    ensures Exactly(net, Dispatch(net, s, d, now), s, Decode(d), now)
  {
    SubscribesExactly(net, s, d, now);
    var r := Dispatch(net, s, d, now);
    hide Dispatch, Decode, Sound, Changed;
    forall t | t in net.peers
      ensures Changed(net.peers[t], r.peers[t], t == s, UpdateMe, net.peers[t].order, [])
    {
      SubscriberPeer(net.peers[t], t == s, r.peers[t]);
    }
  }

  lemma QueuedExactly(net: Net, s: Socket, objs: seq<Object>, t: Socket)
    requires Sound(net) && s in net.peers && t in net.peers
    ensures var r := Queue(net, s, Listing(objs));
      && SameFlags(net, r)
      && Changed(net.peers[t], r.peers[t], t == s, ListObjects, net.peers[t].order,
                 if t == s then [Listing(objs)] else [])
  {
    hide Sound, Changed, Data, Queue, Enqueue;
    QueueIs(net, s, Listing(objs));
    ListedPeer(net.peers[t], t == s, objs, Queue(net, s, Listing(objs)).peers[t]);
  }

  lemma ListObjectsAt(net: Net, s: Socket, d: Blob, m: Message, now: nat, t: Socket)
    requires Sound(net) && s in net.peers && t in net.peers && |d| >= 8 && m == Decode(d) && m.ListObjects?
    ensures var r := Dispatch(net, s, d, now);
      && SameFlags(net, r)
      && Changed(net.peers[t], r.peers[t], t == s, m, OrderAfter(net, s, m, t), Sends(net, s, m, now, t))
  {
    assert Word(d, 1) == 2;
    hide WaitInv, OrderInv, Decode, Dispatch, ObjectsOfPeers, SortedKeys, Changed, Queue, SameFlags, Word;
    ListsIs(net, s, d, now);
    QueuedExactly(net, s, AllObjects(net), t);
  }

  lemma ListObjectsExactly(net: Net, s: Socket, d: Blob, now: nat)
    requires Sound(net) && s in net.peers && |d| >= 8 && Decode(d).ListObjects?
    ensures Exactly(net, Dispatch(net, s, d, now), s, Decode(d), now)
  {
    hide Sound, Dispatch, Decode, Changed, SameFlags, OrderAfter, Sends;
    var r, m := Dispatch(net, s, d, now), Decode(d);
    forall t | t in net.peers
      ensures SameFlags(net, r)
      ensures Changed(net.peers[t], r.peers[t], t == s, m, OrderAfter(net, s, m, t), Sends(net, s, m, now, t))
    {
      ListObjectsAt(net, s, d, m, now, t);
    }
    FlagsFrom(net, r, s);
  }

  lemma CorruptExactly(net: Net, s: Socket, d: Blob, now: nat)
    requires Sound(net) && s in net.peers && |d| >= 8 && Decode(d).Corrupt?
    ensures Exactly(net, Dispatch(net, s, d, now), s, Decode(d), now)
  {
    hide Decode, Sound, Changed;
    forall t | t in net.peers
      ensures Changed(net.peers[t], net.peers[t], t == s, Corrupt, net.peers[t].order, [])
    {
      CorruptPeer(net.peers[t], t == s);
    }
  }

  lemma ReplyIs(net: Net, s: Socket, d: Blob, now: nat)
    requires Sound(net) && s in net.peers && |d| >= 8
    ensures var m, r := Decode(d), Dispatch(net, s, d, now);
      && (m.ListBegin? ==> r == HandleListBegin(net, s, m.full, now))
      && (m.ListEnd? ==> r == HandleListEnd(net, s, m.full))
      && (m.ObjectReply? ==> r == HandleObject(net, s, m))
      && (m.NoneReply? ==> r == HandleNone(net, s, m.name))
  {
    hide Sound, Decode, HandleListBegin, HandleListEnd, HandleObject, HandleNone;
  }

  lemma ReplyExactly(net: Net, s: Socket, d: Blob, now: nat)
    requires Sound(net) && s in net.peers && |d| >= 8
    requires Decode(d).ListBegin? || Decode(d).ListEnd? || Decode(d).ObjectReply? || Decode(d).NoneReply?
    ensures Exactly(net, Dispatch(net, s, d, now), s, Decode(d), now)
  {
    hide Sound, Dispatch, Decode, Changed, HandleListBegin, HandleListEnd, HandleObject, HandleNone;
    hide OrderAfter, Sends;
    ReplyIs(net, s, d, now);
    var r, m := Dispatch(net, s, d, now), Decode(d);
    forall t | t in net.peers
      ensures r.peers.Keys == net.peers.Keys && r.flush == (net.flush || m.ListEnd?)
      ensures r.wakeup == net.wakeup && r.nextFlush == net.nextFlush
      ensures Changed(net.peers[t], r.peers[t], t == s, m, OrderAfter(net, s, m, t), Sends(net, s, m, now, t))
    {
      if m.ListBegin? {
        BeginExactly(net, s, m.full, now, t);
      } else if m.ListEnd? {
        EndExactly(net, s, m.full, now, t);
      } else if m.ObjectReply? {
        ObjectExactly(net, s, m, now, t);
      } else {
        NoneExactly(net, s, m.name, now, t);
      }
    }
  }

  /** Everything a message does besides what it does to caches and waits: what is
      queued to whom, and which flags and counters change. */
  lemma DispatchExactly(net: Net, s: Socket, d: Blob, now: nat)
    requires Sound(net) && s in net.peers && |d| >= 8
    ensures Exactly(net, Dispatch(net, s, d, now), s, Decode(d), now)
  {
    hide Sound, Dispatch, Decode, Exactly;
    match Decode(d)
    case GetObject(name) => GetExactly(net, s, d, name, now);
    case UpdateMe => UpdateMeExactly(net, s, d, now);
    case ListObjects => ListObjectsExactly(net, s, d, now);
    case Corrupt => CorruptExactly(net, s, d, now);
    case _ => ReplyExactly(net, s, d, now);
  }
}
