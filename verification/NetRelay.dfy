/** A request that travels: a node that lacks an object's data asks the peer
    that advertised it, and passes the answer on to everybody who waits. */
module NetRelay {
  import opened Bytes
  import opened Wire
  import opened Messages
  import opened Options
  import opened NetState
  import opened NetSteps
  import opened NetInvariants
  import opened NetSync
  import opened NetWaits

  /** The cached entry cannot answer a request: a histogram without data, or
      with data that is out of date. */
  predicate Lacking(o: Object) {
    (o.rawdata == [] || o.flags.stale) && !o.flags.IsScalar()
  }

  lemma AskedIs(net: Net, s: Socket, name: Blob)
    requires Sound(net) && s in net.peers
    ensures Asked(net, s, name) == Update(net, s, AskedBy(net.peers[s], name))
  {
    assert OrderInv(net.peers[s]);
    hide WaitInv, OrdersInv, OrderInv;
  }

  lemma CacheIs(net: Net, k: Socket, name: Blob, o: Object)
    requires Sound(net) && k in net.peers
    ensures Cache(net, k, name, o) == Update(net, k, PutObject(net.peers[k], name, o))
  {
    PutObjectOrder(net.peers[k], name, o);
    hide WaitInv, OrdersInv, OrderInv;
  }

  lemma AskedKeeps(net: Net, s: Socket, name: Blob)
    requires Sound(net) && s in net.peers
    ensures var n := Asked(net, s, name);
      && n.waiting == net.waiting
      && forall t | t in net.peers :: n.peers[t].log == net.peers[t].log && n.peers[t].objs == net.peers[t].objs
  {
    AskedIs(net, s, name);
    hide Sound, Asked;
  }

  lemma AskedOwner(net: Net, s: Socket, name: Blob)
    requires Sound(net) && s in net.peers
    ensures FindOwner(Asked(net, s, name).peers, name) == FindOwner(net.peers, name)
  {
    hide Sound, Asked, SortedKeys, FirstOwner;
    AskedKeeps(net, s, name);
    var n := Asked(net, s, name);
    assert forall t | t in net.peers :: n.peers[t].objs == net.peers[t].objs;
    SameOwner(net.peers, n.peers, SortedKeys(net.peers.Keys), name);
  }

  lemma GetIsHandled(net: Net, s: Socket, name: Blob, now: nat)
    requires Sound(net) && s in net.peers && 12 + |name| < MESSAGE_SIZE_LIMIT
    ensures |EncodeGet(name)| >= 8
    ensures var h := HandleGet(net, s, name, now);
      Dispatch(net, s, EncodeGet(name), now) == if h.reply.Some? then Queue(h.net, s, h.reply.value) else h.net
  {
    hide Sound, HandleGet, Decode, EncodeGet, Queue;
    DecodeEncodeGet(name);
    FramedLong(EncodeGet(name));
    MessageIsGet(net, s, EncodeGet(name), name, now);
    hide OnMessage;
  }

  lemma MessageIsGet(net: Net, s: Socket, d: Blob, name: Blob, now: nat)
    requires Sound(net) && s in net.peers && |d| >= 8 && Decode(d) == GetObject(name)
    ensures OnMessage(net, s, d, now) == HandleGet(net, s, name, now)
  {
    hide Sound, HandleGet, Decode;
  }

  lemma DeferredLogs(net: Net, s: Socket, name: Blob, k: Socket, now: nat)
    requires Sound(net) && s in net.peers && k in net.peers
    ensures var r := Deferred(net, s, name, k, now);
      && r.waiting == net.waiting + [Wait(now, name, [], s)]
      && r.peers[k].log == net.peers[k].log + [Request(name)]
      && r.peers[k].objs == net.peers[k].objs
      && forall t | t in net.peers && t != k :: r.peers[t].log == net.peers[t].log
  {
    SoundQueues(net, WaitForData(net, s, name, k, now));
    hide WaitInv, OrdersInv, Data;
    assert Deferred(net, s, name, k, now) == WaitForData(net, s, name, k, now);
    hide Deferred, Sound;
  }

  lemma AnswerDeferred(net: Net, s: Socket, name: Blob, k: Socket, now: nat)
    requires Sound(net) && s in net.peers && k in net.peers && name in net.peers[k].objs
    ensures var o := net.peers[k].objs[name].(lastreq := now);
      AnswerFrom(net, s, name, k, now) ==
      if Lacking(o) then Handled(Deferred(Cache(net, k, name, o), s, name, k, now), None, true)
      else Handled(Cache(net, k, name, o), Some(Reply(name, Some(o))), true)
  {
    hide Sound, Cache, Deferred;
  }

  /** The requester is put on the wait list and the owner is asked. */
  lemma Asks(net: Net, s: Socket, name: Blob, k: Socket, now: nat)
    requires Sound(net) && s in net.peers && 12 + |name| < MESSAGE_SIZE_LIMIT
    requires FindOwner(net.peers, name) == Some(k) && Lacking(net.peers[k].objs[name])
    ensures |EncodeGet(name)| >= 8
    ensures var r := Dispatch(net, s, EncodeGet(name), now);
      && r.peers.Keys == net.peers.Keys
      && r.peers[k].log == net.peers[k].log + [Request(name)]
      && (forall t | t in net.peers && t != k :: r.peers[t].log == net.peers[t].log)
      && r.waiting == net.waiting + [Wait(now, name, [], s)]
      && r.peers[k].objs == net.peers[k].objs[name := net.peers[k].objs[name].(lastreq := now)]
  {
    hide Sound, FindOwner, EncodeGet, Dispatch, Asked, AnswerFrom, Cache, Deferred;
    GetIsHandled(net, s, name, now);
    AskedOwner(net, s, name);
    AskedKeeps(net, s, name);
    var n := Asked(net, s, name);
    assert HandleGet(net, s, name, now) == AnswerFrom(n, s, name, k, now);
    hide HandleGet;
    AnswerDeferred(n, s, name, k, now);
    var o := n.peers[k].objs[name].(lastreq := now);
    CacheLogs(n, k, name, o);
    DeferredLogs(Cache(n, k, name, o), s, name, k, now);
  }

  lemma CacheLogs(net: Net, k: Socket, name: Blob, o: Object)
    requires Sound(net) && k in net.peers
    ensures var r := Cache(net, k, name, o);
      && r.waiting == net.waiting && r.peers[k].objs == net.peers[k].objs[name := o]
      && forall t | t in net.peers :: r.peers[t].log == net.peers[t].log
  {
    CacheIs(net, k, name, o);
    hide Sound, Cache;
  }

  lemma QueueLog(net: Net, u: Socket, q: Queued)
    requires Sound(net) && u in net.peers
    ensures Queue(net, u, q).waiting == net.waiting && Queue(net, u, q).peers[u].log == net.peers[u].log + [q]
  {
    assert OrderInv(net.peers[u]);
    hide WaitInv, OrdersInv, OrderInv, Data;
  }

  /** A node that has the data answers at once. */
  lemma Answers(net: Net, u: Socket, name: Blob, j: Socket, now: nat)
    requires Sound(net) && u in net.peers && 12 + |name| < MESSAGE_SIZE_LIMIT
    requires FindOwner(net.peers, name) == Some(j) && !Lacking(net.peers[j].objs[name])
    ensures |EncodeGet(name)| >= 8
    ensures var r := Dispatch(net, u, EncodeGet(name), now);
      && r.peers.Keys == net.peers.Keys && r.waiting == net.waiting
      && r.peers[u].log == net.peers[u].log + [Reply(name, Some(net.peers[j].objs[name].(lastreq := now)))]
  {
    hide Sound, FindOwner, EncodeGet, Dispatch, Asked, AnswerFrom, Cache, Deferred, Queue;
    GetIsHandled(net, u, name, now);
    AskedOwner(net, u, name);
    AskedKeeps(net, u, name);
    var n := Asked(net, u, name);
    assert HandleGet(net, u, name, now) == AnswerFrom(n, u, name, j, now);
    hide HandleGet;
    AnswerDeferred(n, u, name, j, now);
    var o := n.peers[j].objs[name].(lastreq := now);
    CacheLogs(n, j, name, o);
    QueueLog(Cache(n, j, name, o), u, Reply(name, Some(o)));
  }

  /** What an OBJECT message makes of the entry that is cached for its name. */
  function Got(net: Net, k: Socket, o: Object): Object
    requires k in net.peers
  {
    ReceivedObject(CachedOrFresh(net.peers[k], FullName(o)), Told(o))
  }

  function Told(o: Object): Message {
    ObjectReply(o.flags.(dead := false), o.version, o.tag, FullName(o), SentData(o, true), o.qdata)
  }

  /** When the data come, everybody who waits for them gets them. */
  lemma Delivers(net: Net, k: Socket, s: Socket, o: Object, now: nat)
    requires Sound(net) && k in net.peers && s in net.peers
    requires SentData(o, true) != [] && |EncodeObject(o, true)| < MESSAGE_SIZE_LIMIT
    ensures var r := Dispatch(net, k, EncodeObject(o, true), now);
      && r.peers.Keys == net.peers.Keys
      && r.peers[s].log == net.peers[s].log
           + seq(|Repliers(net.waiting, FullName(o), s)|, _ => Reply(FullName(o), Some(Got(net, k, o))))
      && forall w :: w in r.waiting <==> w in net.waiting && w.name != FullName(o)
  {
    hide Sound, EncodeObject, Decode, Dispatch, Repliers, HandleObject;
    DecodeEncodeObject(o, true);
    DispatchIsHandleObject(net, k, EncodeObject(o, true), now);
    ObjectReleases(net, k, Told(o), s);
  }

  lemma ObjectReleases(net: Net, k: Socket, m: Message, s: Socket)
    requires Sound(net) && k in net.peers && s in net.peers && m.ObjectReply? && m.data != []
    ensures var r := HandleObject(net, k, m);
      && r.peers.Keys == net.peers.Keys
      && (forall w :: w in r.waiting <==> w in net.waiting && w.name != m.name)
      && r.peers[s].log == net.peers[s].log + seq(|Repliers(net.waiting, m.name, s)|,
           _ => Reply(m.name, Some(ReceivedObject(CachedOrFresh(net.peers[k], m.name), m))))
  {
    SourceCaches(net, k);
    var n0 := SetPeer(net, k, AsSource(net.peers[k]));
    var got := ReceivedObject(CachedOrFresh(n0.peers[k], m.name), m);
    assert got == ReceivedObject(CachedOrFresh(net.peers[k], m.name), m);
    hide Sound, OrderInv, Repliers, Released, ReceivedObject, CachedOrFresh, Cache;
    CacheLogs(n0, k, m.name, got);
    var n1 := Cache(n0, k, m.name, got);
    assert HandleObject(net, k, m) == Released(n1, m.name, Some(got));
    hide HandleObject;
    WaitersReleased(n1, m.name, Some(got), s);
  }

  lemma GotTells(net: Net, k: Socket, o: Object, name: Blob)
    requires k in net.peers && name in net.peers[k].objs && AfterSlash(name) != 1
    requires Names(name, o) && Names(name, net.peers[k].objs[name])
    requires SentData(o, true) != [] && |EncodeObject(o, true)| < MESSAGE_SIZE_LIMIT
    ensures FullName(o) == name
    ensures Decode(EncodeObject(Got(net, k, o), true)) ==
      ObjectReply(o.flags.(dead := false, isNew := true, received := true), o.version, o.tag, name,
                  SentData(o, true), o.qdata)
  {
    AdvertisedNameIff(name);
    hide AfterSlash, Decode, EncodeObject, DirOf, BaseOf, Join;
    DecodeEncodeObject(Got(net, k, o), true);
  }

  lemma {:induction false} RepliersOneMore(ws: seq<Wait>, w: Wait)
    ensures |Repliers(ws + [w], w.name, w.peer)| == |Repliers(ws, w.name, w.peer)| + 1
  {
    if ws == [] {
      assert [w][1..] == [];
    } else {
      RepliersOneMore(ws[1..], w);
      assert (ws + [w])[1..] == ws[1..] + [w];
    }
  }

  /** A request of s makes a ask k for name, which leads to a1. Node b, asked by
      u, answers, which leads to b1. When its answer o reaches a, then a sends s
      what b has, once for this request and once for every earlier one of s
      that waits, after which nobody waits for the object. */
  ghost predicate Relayed(a: Net, a1: Net, a2: Net, b: Net, b1: Net, s: Socket, k: Socket, u: Socket,
                          name: Blob, o: Object, got: Object) {
    && s in a.peers && s in a2.peers && k in a.peers && k in a1.peers && u in b.peers && u in b1.peers
    && a1.peers[k].log == a.peers[k].log + [Request(name)]
    && b1.peers[u].log == b.peers[u].log + [Reply(name, Some(o))]
    && a2.peers[s].log == a.peers[s].log + seq(|Repliers(a.waiting, name, s)| + 1, _ => Reply(name, Some(got)))
    && (forall w | w in a2.waiting :: w.name != name)
    && Decode(Data(Reply(name, Some(got)))) ==
       ObjectReply(o.flags.(dead := false, isNew := true, received := true), o.version, o.tag, name,
                  SentData(o, true), o.qdata)
  }

  /** Node a lacks the data of an object that its peer k, which is node b,
      advertised, and b has them. */
  lemma RelayedRequest(a: Net, s: Socket, k: Socket, b: Net, u: Socket, j: Socket, name: Blob,
                       t1: nat, t2: nat, t3: nat)
    requires Sound(a) && s in a.peers && s != k && FindOwner(a.peers, name) == Some(k)
    requires Lacking(a.peers[k].objs[name]) && Names(name, a.peers[k].objs[name])
    requires Sound(b) && u in b.peers && FindOwner(b.peers, name) == Some(j)
    requires !Lacking(b.peers[j].objs[name]) && Names(name, b.peers[j].objs[name])
    requires SentData(b.peers[j].objs[name], true) != []
    requires |EncodeObject(b.peers[j].objs[name], true)| < MESSAGE_SIZE_LIMIT
    requires AfterSlash(name) != 1 && 12 + |name| < MESSAGE_SIZE_LIMIT
    ensures |EncodeGet(name)| >= 8
    ensures var o := b.peers[j].objs[name].(lastreq := t2);
      var a1, b1 := Dispatch(a, s, EncodeGet(name), t1), Dispatch(b, u, EncodeGet(name), t2);
      Relayed(a, a1, Dispatch(a1, k, EncodeObject(o, true), t3), b, b1, s, k, u, name, o, Got(a1, k, o))
  {
    hide Dispatch, FindOwner, EncodeObject, Decode, EncodeGet, AfterSlash, Repliers, Sound, Got, FullName, AnswerFrom;
    var o := b.peers[j].objs[name].(lastreq := t2);
    Asks(a, s, name, k, t1);
    Answers(b, u, name, j, t2);
    var a1 := Dispatch(a, s, EncodeGet(name), t1);
    RequestedAt(b.peers[j].objs[name], t2);
    RepliersOneMore(a.waiting, Wait(t1, name, [], s));
    GotTells(a1, k, o, name);
    Delivers(a1, k, s, o, t3);
  }

  lemma RequestedAt(o: Object, t: nat)
    ensures var r := o.(lastreq := t);
      && SentData(r, true) == SentData(o, true) && |EncodeObject(r, true)| == |EncodeObject(o, true)|
  {
    hide Words, ObjectHeader;
  }
}
