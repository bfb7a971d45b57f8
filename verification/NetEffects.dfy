/** What each message does to the caches and to the wait list. */
module NetEffects {
  import opened Bytes
  import opened Messages
  import opened Options
  import opened NetState
  import opened NetSteps
  import opened NetWaits
  import opened NetSync
  import opened NetRelay

  /** The waits for other names. */
  function Others(ws: seq<Wait>, name: Blob): seq<Wait> {
    if ws == [] then [] else (if ws[0].name == name then [] else [ws[0]]) + Others(ws[1..], name)
  }

  function WaitsAfter(net: Net, s: Socket, m: Message, now: nat): seq<Wait> {
    match m
    case GetObject(name) =>
      var k := FindOwner(net.peers, name);
      if k.Some? && Lacking(net.peers[k.value].objs[name]) then net.waiting + [Wait(now, name, [], s)] else net.waiting
    case ObjectReply(_, _, _, name, data, _) => if data == [] then net.waiting else Others(net.waiting, name)
    case NoneReply(name) => Others(net.waiting, name)
    case _ => net.waiting
  }

  function Died(objs: map<Blob, Object>, name: Blob): map<Blob, Object>
    requires name in objs
  {
    objs[name := objs[name].(flags := objs[name].flags.(dead := true))]
  }

  /** The cache of peer t after a message from s. */
  function CacheAfter(net: Net, s: Socket, m: Message, now: nat, t: Socket): map<Blob, Object>
    requires s in net.peers && t in net.peers
  {
    var objs := net.peers[t].objs;
    match m
    case GetObject(name) =>
      if FindOwner(net.peers, name) == Some(t) then objs[name := objs[name].(lastreq := now)] else objs
    case ListBegin(full) => if full && t == s then MarkedDead(objs, now) else objs
    case ListEnd(full) => if full && t == s then Alive(objs) else objs
    case ObjectReply(_, _, _, name, _, _) =>
      if t == s then objs[name := ReceivedObject(CachedOrFresh(net.peers[s], name), m)] else objs
    case NoneReply(name) =>
      if t == s && name in objs then Alive(Died(objs, name)) else objs
    case _ => objs
  }

  ghost predicate HasEffect(net: Net, r: Net, s: Socket, m: Message, now: nat)
    requires s in net.peers
  {
    && r.peers.Keys == net.peers.Keys
    && r.waiting == WaitsAfter(net, s, m, now)
    && forall t | t in net.peers :: r.peers[t].objs == CacheAfter(net, s, m, now, t)
  }

  lemma {:induction false} StayingOthers(ws: seq<Wait>, name: Blob, o: Option<Object>)
    ensures Staying(ws, (w: Wait) => if w.name == name then Release(o) else Keep) == Others(ws, name)
  {
    if ws != [] {
      StayingOthers(ws[1..], name, o);
    }
  }

  lemma SourceIs(net: Net, s: Socket)
    requires Sound(net) && s in net.peers
    ensures OrderInv(net.peers[s])
    ensures SetPeer(net, s, AsSource(net.peers[s])) == Update(net, s, AsSource(net.peers[s]))
  {
    SoundOrder(net, s);
    hide Sound, OrderInv;
  }

  lemma RequestedIs(net: Net, s: Socket, name: Blob)
    requires Sound(net) && s in net.peers
    ensures Requested(net, s, name) == Update(net, s, Enqueue(net.peers[s], Request(name)))
  {
    hide Sound, Data, OnlyQueues;
  }

  lemma ReleasedEffect(net: Net, name: Blob, o: Option<Object>)
    requires Sound(net)
    ensures var r := Released(net, name, o);
      && r.waiting == Others(net.waiting, name)
      && forall t | t in net.peers :: r.peers[t].objs == net.peers[t].objs
  {
    var verdict := (w: Wait) => if w.name == name then Release(o) else Keep;
    SweepWaiting(net, 0, verdict);
    StayingOthers(net.waiting, name, o);
    assert net.waiting[0..] == net.waiting;
    assert OnlyQueues(net, ReleaseWaiters(net, name, o));
    hide WaitInv, OrdersInv, Sweep, Others;
  }

  lemma QueueEffect(net: Net, s: Socket, q: Queued)
    requires Sound(net) && s in net.peers
    ensures var r := Queue(net, s, q);
      && r.waiting == net.waiting
      && forall t | t in net.peers :: r.peers[t].objs == net.peers[t].objs
  {
    assert OrderInv(net.peers[s]);
    hide WaitInv, OrdersInv, OrderInv, Data;
  }

  lemma RequestedEffect(net: Net, s: Socket, name: Blob)
    requires Sound(net) && s in net.peers
    ensures var r := Requested(net, s, name);
      && r.waiting == net.waiting
      && forall t | t in net.peers :: r.peers[t].objs == net.peers[t].objs
  {
    assert OnlyQueues(net, RequestObjectData(net, s, name));
    hide WaitInv, OrdersInv, Data;
  }

  lemma CacheEffect(net: Net, k: Socket, name: Blob, o: Object)
    requires Sound(net) && k in net.peers
    ensures var r := Cache(net, k, name, o);
      && r.waiting == net.waiting
      && forall t | t in net.peers ::
           r.peers[t].objs == if t == k then net.peers[t].objs[name := o] else net.peers[t].objs
  {
    CacheIs(net, k, name, o);
    hide Sound, Cache;
  }

  lemma DeferredEffect(net: Net, s: Socket, name: Blob, k: Socket, now: nat)
    requires Sound(net) && s in net.peers && k in net.peers
    ensures var r := Deferred(net, s, name, k, now);
      && r.waiting == net.waiting + [Wait(now, name, [], s)]
      && forall t | t in net.peers :: r.peers[t].objs == net.peers[t].objs
  {
    DeferredLogs(net, s, name, k, now);
    assert OnlyQueues(net, WaitForData(net, s, name, k, now));
    hide WaitInv, OrdersInv, WaitForData;
  }

  lemma AnswerEffect(net: Net, s: Socket, name: Blob, k: Socket, now: nat)
    requires Sound(net) && s in net.peers && k in net.peers && name in net.peers[k].objs
    ensures var r := AnswerFrom(net, s, name, k, now).net;
      && r.waiting == (if Lacking(net.peers[k].objs[name]) then net.waiting + [Wait(now, name, [], s)] else net.waiting)
      && forall t | t in net.peers ::
           r.peers[t].objs == if t == k then net.peers[t].objs[name := net.peers[t].objs[name].(lastreq := now)]
                              else net.peers[t].objs
  {
    hide Sound, AnswerFrom, Cache, Deferred;
    AnswerDeferred(net, s, name, k, now);
    var o := net.peers[k].objs[name].(lastreq := now);
    CacheEffect(net, k, name, o);
    DeferredEffect(Cache(net, k, name, o), s, name, k, now);
  }

  lemma GetEffect(net: Net, s: Socket, name: Blob, now: nat)
    requires Sound(net) && s in net.peers
    ensures HasEffect(net, HandleGet(net, s, name, now).net, s, GetObject(name), now)
  {
    hide Sound, FindOwner, Asked, AnswerFrom, Lacking;
    AskedOwner(net, s, name);
    AskedKeeps(net, s, name);
    var n := Asked(net, s, name);
    match FindOwner(n.peers, name)
    case None =>
    case Some(k) => AnswerEffect(n, s, name, k, now);
  }

  lemma SourceEffect(net: Net, s: Socket)
    requires Sound(net) && s in net.peers
    ensures OrderInv(net.peers[s])
    ensures var r := SetPeer(net, s, AsSource(net.peers[s]));
      && r.waiting == net.waiting
      && forall t | t in net.peers :: r.peers[t].objs == net.peers[t].objs
  {
    assert OrderInv(net.peers[s]);
    hide WaitInv, OrdersInv, OrderInv;
  }

  lemma ObjectCore(net: Net, s: Socket, m: Message)
    requires Sound(net) && s in net.peers && m.ObjectReply?
    ensures var r := HandleObject(net, s, m);
      && r.peers.Keys == net.peers.Keys
      && r.waiting == (if m.data == [] then net.waiting else Others(net.waiting, m.name))
      && forall t | t in net.peers ::
           var objs := net.peers[t].objs;
           r.peers[t].objs ==
             if t == s then objs[m.name := ReceivedObject(CachedOrFresh(net.peers[s], m.name), m)] else objs
  {
    SourceEffect(net, s);
    var n0 := SetPeer(net, s, AsSource(net.peers[s]));
    assert CachedOrFresh(n0.peers[s], m.name) == CachedOrFresh(net.peers[s], m.name);
    hide Sound, OrderInv, SetPeer, Cache, Requested, Released, ReceivedObject, CachedOrFresh, Others, AsSource;
    var o := ReceivedObject(CachedOrFresh(n0.peers[s], m.name), m);
    CacheEffect(n0, s, m.name, o);
    var n1 := Cache(n0, s, m.name, o);
    RequestedEffect(n1, s, m.name);
    var n2 := if o.lastreq > 0 && m.data == [] && !o.flags.IsScalar() then Requested(n1, s, m.name) else n1;
    ReleasedEffect(n2, m.name, Some(o));
    assert HandleObject(net, s, m) == if m.data != [] then Released(n2, m.name, Some(o)) else n2;
    hide HandleObject;
  }

  lemma ObjectEffect(net: Net, s: Socket, m: Message, now: nat)
    requires Sound(net) && s in net.peers && m.ObjectReply?
    ensures HasEffect(net, HandleObject(net, s, m), s, m, now)
  {
    hide Sound, HandleObject, ReceivedObject, CachedOrFresh, Others;
    ObjectCore(net, s, m);
  }

  lemma PurgedEffect(net: Net, s: Socket)
    requires Sound(net) && s in net.peers
    ensures var r := Purged(net, s);
      && r.waiting == net.waiting
      && forall t | t in net.peers ::
           r.peers[t].objs == if t == s then Alive(net.peers[t].objs) else net.peers[t].objs
  {
    RestrictOrder(net.peers[s], LiveNames(net.peers[s].objs));
    hide WaitInv, OrdersInv, OrderInv, KeepIn;
  }

  lemma NoneCore(net: Net, s: Socket, name: Blob)
    requires Sound(net) && s in net.peers
    ensures var r := HandleNone(net, s, name);
      && r.peers.Keys == net.peers.Keys
      && r.waiting == Others(net.waiting, name)
      && forall t | t in net.peers ::
           r.peers[t].objs == if t == s && name in net.peers[t].objs then Alive(Died(net.peers[t].objs, name))
                              else net.peers[t].objs
  {
    SourceEffect(net, s);
    hide Sound, OrderInv, SetPeer, Cache, Purged, Released, Others, Alive, AsSource;
    var n0 := SetPeer(net, s, AsSource(net.peers[s]));
    if name in n0.peers[s].objs {
      var o := n0.peers[s].objs[name];
      var dead := o.(flags := o.flags.(dead := true));
      CacheEffect(n0, s, name, dead);
      PurgedEffect(Cache(n0, s, name, dead), s);
      ReleasedEffect(Purged(Cache(n0, s, name, dead), s), name, None);
      assert HandleNone(net, s, name) == Released(Purged(Cache(n0, s, name, dead), s), name, None);
      hide HandleNone;
    } else {
      ReleasedEffect(n0, name, None);
      assert HandleNone(net, s, name) == Released(n0, name, None);
      hide HandleNone;
    }
  }

  lemma NoneEffect(net: Net, s: Socket, name: Blob, now: nat)
    requires Sound(net) && s in net.peers
    ensures HasEffect(net, HandleNone(net, s, name), s, NoneReply(name), now)
  {
    hide Sound, HandleNone, Others, Alive;
    NoneCore(net, s, name);
  }

  lemma BeginEffect(net: Net, s: Socket, full: bool, now: nat)
    requires Sound(net) && s in net.peers
    ensures HasEffect(net, HandleListBegin(net, s, full, now), s, ListBegin(full), now)
  {
    MarkedOrder(net, s, now);
    MarkedIs(net.peers[s], now);
    hide WaitInv, OrdersInv, OrderInv, MarkObjectsDead, MarkedDead;
    assert HandleListBegin(net, s, full, now) ==
           if full then Update(net, s, MarkObjectsDead(net.peers[s], now)) else net;
    hide Sound, HandleListBegin;
  }

  lemma CountEffect(net: Net, s: Socket)
    requires Sound(net) && s in net.peers
    ensures var r := CountUpdate(net, s);
      && r.waiting == net.waiting
      && forall t | t in net.peers :: r.peers[t].objs == net.peers[t].objs
  {
    assert OrderInv(net.peers[s]);
    hide WaitInv, OrdersInv, OrderInv;
  }

  lemma EndEffect(net: Net, s: Socket, full: bool, now: nat)
    requires Sound(net) && s in net.peers
    ensures HasEffect(net, HandleListEnd(net, s, full), s, ListEnd(full), now)
  {
    hide Sound, Purged, Alive, CountUpdate;
    PurgedEffect(net, s);
    CountEffect(Flagged(if full then Purged(net, s) else net), s);
  }

  lemma WantsEffect(net: Net, s: Socket)
    requires Sound(net) && s in net.peers
    ensures OrderInv(net.peers[s])
    ensures var r := SetPeer(net, s, WantsUpdates(net.peers[s]));
      && r.waiting == net.waiting
      && forall t | t in net.peers :: r.peers[t].objs == net.peers[t].objs
  {
    SoundOrder(net, s);
    hide WaitInv, OrdersInv, OrderInv;
  }

  lemma PlainEffect(net: Net, s: Socket, d: Blob, now: nat)
    requires Sound(net) && s in net.peers && |d| >= 8
    requires Decode(d).UpdateMe? || Decode(d).ListObjects? || Decode(d).Corrupt?
    ensures HasEffect(net, OnMessage(net, s, d, now).net, s, Decode(d), now)
  {
    hide Sound, Indexes, SetPeer, AllObjects, Decode;
    hide HandleGet, HandleObject, HandleNone, HandleListBegin, HandleListEnd;
    WantsEffect(net, s);
    assert OnMessage(net, s, d, now).net ==
           if Decode(d).UpdateMe? then SetPeer(net, s, WantsUpdates(net.peers[s])) else net;
    hide OnMessage;
  }

  lemma MessageEffect(net: Net, s: Socket, d: Blob, now: nat)
    requires Sound(net) && s in net.peers && |d| >= 8
    ensures HasEffect(net, OnMessage(net, s, d, now).net, s, Decode(d), now)
  {
    hide HasEffect, Sound, HandleGet, HandleObject, HandleNone, HandleListBegin, HandleListEnd, AllObjects, Decode;
    if Decode(d).UpdateMe? || Decode(d).ListObjects? || Decode(d).Corrupt? {
      PlainEffect(net, s, d, now);
    } else {
      match Decode(d)
      case GetObject(name) => GetEffect(net, s, name, now);
      case ListBegin(full) => BeginEffect(net, s, full, now);
      case ListEnd(full) => EndEffect(net, s, full, now);
      case ObjectReply(_, _, _, _, _, _) => ObjectEffect(net, s, Decode(d), now);
      case NoneReply(name) => NoneEffect(net, s, name, now);
    }
  }

  /** Everything a message does to the wait list and to the caches. */
  lemma DispatchEffect(net: Net, s: Socket, d: Blob, now: nat)
    requires Sound(net) && s in net.peers && |d| >= 8
    ensures HasEffect(net, Dispatch(net, s, d, now), s, Decode(d), now)
  {
    MessageEffect(net, s, d, now);
    hide Sound, OnMessage, Queue, WaitsAfter, CacheAfter, Decode;
    var h := OnMessage(net, s, d, now);
    if h.reply.Some? {
      QueueEffect(h.net, s, h.reply.value);
    }
  }
}
