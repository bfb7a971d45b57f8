/** The network layer as it runs: one object whose peers, wait list and flags
    are updated in place. Every method does to the state exactly what the step
    of NetSteps that it implements says. */
module DQMNetImpl {
  import opened Bytes
  import opened Wire
  import opened Messages
  import opened Options
  import opened NetState
  import opened NetSteps
  import opened NetFraming
  import opened NetWaits

  lemma DropWaitsPush(ws: seq<Wait>, w: Wait, s: Socket)
    ensures DropWaits(ws + [w], s) == DropWaits(ws, s) + if w.peer == s then [] else [w]
  {
    assert (ws + [w])[..|ws|] == ws;
  }

  lemma DropWaitsAppend(a: seq<Wait>, init: seq<Wait>, w: Wait, s: Socket)
    requires DropWaits(a + init, s) == DropWaits(a, s) + DropWaits(init, s)
    ensures DropWaits(a + (init + [w]), s) == DropWaits(a, s) + DropWaits(init + [w], s)
  {
    hide DropWaits;
    Assoc(a, init, [w]);
    DropWaitsPush(a + init, w, s);
    DropWaitsPush(init, w, s);
    Assoc(DropWaits(a, s), DropWaits(init, s), if w.peer == s then [] else [w]);
  }

  lemma {:induction false} DropWaitsConcat(a: seq<Wait>, b: seq<Wait>, s: Socket)
    ensures DropWaits(a + b, s) == DropWaits(a, s) + DropWaits(b, s)
  {
    if b == [] {
      assert a + b == a;
    } else {
      hide DropWaits;
      var init, w := b[..|b| - 1], b[|b| - 1];
      DropWaitsConcat(a, init, s);
      DropWaitsAppend(a, init, w, s);
      assert b == init + [w];
    }
  }

  lemma DropNow(ws: seq<Wait>, i: nat, s: Socket)
    requires i < |ws| && ws[i].peer == s
    ensures DropWaits(Without(ws, i), s) == DropWaits(ws, s)
  {
    var a, b := ws[..i], ws[i + 1..];
    assert DropWaits([ws[i]], s) == [];
    hide DropWaits;
    assert ws == (a + [ws[i]]) + b;
    DropWaitsConcat(a + [ws[i]], b, s);
    DropWaitsConcat(a, [ws[i]], s);
    DropWaitsConcat(a, b, s);
    assert DropWaits(a, s) + [] == DropWaits(a, s);
  }

  lemma DropNext(ws: seq<Wait>, i: nat, s: Socket)
    requires i < |ws| && ws[i].peer != s && DropWaits(ws[..i], s) == ws[..i]
    ensures DropWaits(ws[..i + 1], s) == ws[..i + 1]
  {
    hide DropWaits;
    DropWaitsPush(ws[..i], ws[i], s);
    assert ws[..i + 1] == ws[..i] + [ws[i]];
  }

  lemma KeepInPush(order: seq<Blob>, n: Blob, keep: set<Blob>)
    ensures KeepIn(order + [n], keep) == KeepIn(order, keep) + if n in keep then [n] else []
  {
    assert (order + [n])[..|order|] == order;
  }

  lemma KeepInAppend(a: seq<Blob>, init: seq<Blob>, n: Blob, keep: set<Blob>)
    requires KeepIn(a + init, keep) == KeepIn(a, keep) + KeepIn(init, keep)
    ensures KeepIn(a + (init + [n]), keep) == KeepIn(a, keep) + KeepIn(init + [n], keep)
  {
    hide KeepIn;
    Assoc(a, init, [n]);
    KeepInPush(a + init, n, keep);
    KeepInPush(init, n, keep);
    Assoc(KeepIn(a, keep), KeepIn(init, keep), if n in keep then [n] else []);
  }

  lemma {:induction false} KeepInConcat(a: seq<Blob>, b: seq<Blob>, keep: set<Blob>)
    ensures KeepIn(a + b, keep) == KeepIn(a, keep) + KeepIn(b, keep)
  {
    if b == [] {
      assert a + b == a;
    } else {
      hide KeepIn;
      var init, n := b[..|b| - 1], b[|b| - 1];
      KeepInConcat(a, init, keep);
      KeepInAppend(a, init, n, keep);
      assert b == init + [n];
    }
  }

  lemma KeepInErase(order: seq<Blob>, i: nat, keep: set<Blob>)
    requires i < |order| && order[i] !in keep
    ensures var r := order[..i] + order[i + 1..];
      KeepIn(r, keep) == KeepIn(order, keep) && r[..i] == order[..i]
  {
    var a, b := order[..i], order[i + 1..];
    assert KeepIn([order[i]], keep) == [];
    hide KeepIn;
    assert order == (a + [order[i]]) + b;
    KeepInConcat(a + [order[i]], b, keep);
    KeepInConcat(a, [order[i]], keep);
    KeepInConcat(a, b, keep);
    assert KeepIn(a, keep) + [] == KeepIn(a, keep);
  }

  lemma KeepInNext(order: seq<Blob>, i: nat, keep: set<Blob>)
    requires i < |order| && order[i] in keep && KeepIn(order[..i], keep) == order[..i]
    ensures KeepIn(order[..i + 1], keep) == order[..i + 1]
  {
    KeepInPush(order[..i], order[i], keep);
    hide KeepIn;
    assert order[..i + 1] == order[..i] + [order[i]];
  }

  lemma EraseIndexes(order: seq<Blob>, objs: map<Blob, Object>, i: nat)
    requires Indexes(order, objs) && i < |order|
    ensures Indexes(order[..i] + order[i + 1..], objs - {order[i]})
  {
    var r := order[..i] + order[i + 1..];
    forall n
      ensures n in r <==> n in objs && n != order[i]
    {
      if n in objs && n != order[i] {
        var k :| 0 <= k < |order| && order[k] == n;
        assert r[if k < i then k else k - 1] == n;
      }
    }
  }

  lemma AllKept(order: seq<Blob>, objs: map<Blob, Object>, keep: set<Blob>)
    requires Indexes(order, objs) && KeepIn(order, keep) == order
    ensures forall n | n in objs :: n in keep
  {
    assert forall n | n in objs :: n in KeepIn(order, keep);
  }

  class DQMNet {
    var peers: map<Socket, Peer>
    var waiting: seq<Wait>
    var flush: bool
    var wakeup: bool
    var nextFlush: nat

    ghost function State(): Net
      reads this
    {
      Net(peers, waiting, flush, wakeup, nextFlush)
    }

    ghost predicate Valid()
      reads this
    {
      Sound(State())
    }

    constructor ()
      ensures Valid() && State() == InitialNet
    {
      peers, waiting, flush, wakeup, nextFlush := map[LOCAL := NewPeer], [], false, false, 0;
    }

    // ----- peers

    method LosePeer(s: Socket)
      requires Valid() && s in peers
      modifies this
      ensures Valid() && State() == NetState.LosePeer(old(State()), s)
    {
      ghost var net := State();
      LosePeerSound(net, s);
      hide WaitInv, OrdersInv;
      DropWaitsOf(s);
      wakeup := wakeup || peers[s].objs != map[];
      peers := peers - {s};
      assert State() == NetState.LosePeer(net, s);
    }

    /** The loop of losePeer over the wait list. */
    method DropWaitsOf(s: Socket)
      modifies this`waiting
      ensures waiting == DropWaits(old(waiting), s)
    {
      ghost var ws := waiting;
      var i := 0;
      while i < |waiting|
        invariant 0 <= i <= |waiting|
        invariant DropWaits(waiting, s) == DropWaits(ws, s)
        invariant DropWaits(waiting[..i], s) == waiting[..i]
        decreases |waiting| - i
      {
        if waiting[i].peer == s {
          DropNow(waiting, i, s);
          assert Without(waiting, i)[..i] == waiting[..i];
          waiting := waiting[..i] + waiting[i + 1..];
        } else {
          DropNext(waiting, i, s);
          i := i + 1;
        }
      }
      assert waiting[..i] == waiting;
    }

    /** onPeerConnect. */
    method Accept(s: Socket)
      requires Valid() && s !in peers
      modifies this
      ensures Valid() && State() == AddPeer(old(State()), s, AcceptedPeer)
    {
      hide WaitInv, OrdersInv;
      ghost var net := State();
      peers := peers[s := AcceptedPeer];
      assert State() == AddPeer(net, s, AcceptedPeer);
    }

    /** A connection that run() opens. */
    method Dial(s: Socket, upstream: bool)
      requires Valid() && s !in peers
      modifies this
      ensures OrderInv(DialledPeer(upstream))
      ensures Valid() && State() == AddPeer(old(State()), s, DialledPeer(upstream))
    {
      hide WaitInv, OrdersInv, Data;
      ghost var net := State();
      peers := peers[s := DialledPeer(upstream)];
      assert State() == AddPeer(net, s, DialledPeer(upstream));
    }

    /** findObject over all peers, in the order of their sockets. */
    method FindObject(name: Blob) returns (owner: Option<Socket>)
      requires Valid()
      ensures owner == FindOwner(peers, name)
    {
      hide Valid;
      var ss := SortedKeys(peers.Keys);
      hide SortedKeys;
      while ss != []
        invariant forall s | s in ss :: s in peers
        invariant FirstOwner(peers, ss, name) == FirstOwner(peers, SortedKeys(peers.Keys), name)
        decreases |ss|
      {
        if name in peers[ss[0]].objs {
          return Some(ss[0]);
        }
        ss := ss[1..];
      }
      owner := None;
    }

    /** findObject without the owner. */
    method FindInAnyPeer(name: Blob) returns (o: Option<Object>)
      requires Valid()
      ensures o == FindAnywhere(peers, name)
    {
      hide Valid;
      var owner := FindObject(name);
      hide FindOwner;
      o := if owner.Some? then Some(peers[owner.value].objs[name]) else None;
    }

    method RequestObjectData(s: Socket, name: Blob)
      requires Valid() && s in peers
      modifies this
      ensures Valid() && State() == Requested(old(State()), s, name)
    {
      hide Data, WaitInv, OrdersInv;
      ghost var net := State();
      peers := peers[s := Enqueue(peers[s], Request(name))];
      assert State() == Requested(net, s, name);
    }

    method WaitForData(s: Socket, name: Blob, owner: Socket, now: nat)
      requires Valid() && s in peers && owner in peers
      modifies this
      ensures Valid() && State() == Deferred(old(State()), s, name, owner, now)
    {
      ghost var net := State();
      DeferredSteps(net, s, name, owner, now);
      hide Sound, Requested, AddWait, Deferred;
      RequestObjectData(owner, name);
      RecordWait(s, Wait(now, name, [], s));
    }

    /** Append to the wait list and count the wait. */
    method RecordWait(s: Socket, w: Wait)
      requires Valid() && s in peers && w.peer == s
      modifies this
      ensures State() == AddWait(old(State()), s, w)
    {
      hide WaitInv, OrdersInv, WaitNames, OnlyQueues;
      waiting := waiting + [w];
      peers := peers[s := peers[s].(waiting := peers[s].waiting + 1)];
    }

    // ----- the wait list

    method ReleaseFromWait(i: nat, o: Option<Object>)
      requires Valid() && i < |waiting|
      modifies this
      ensures Valid() && State() == ReleaseOne(old(State()), i, o)
    {
      ghost var net := State();
      SoundQueues(net, ReleaseOne(net, i, o));
      WaiterIsCounted(net, i);
      hide Data, OrdersInv;
      var w := waiting[i];
      var p := Enqueue(peers[w.peer], Reply(w.name, o));
      assert p.waiting > 0;
      peers := peers[w.peer := p.(waiting := p.waiting - 1)];
      waiting := waiting[..i] + waiting[i + 1..];
      assert State() == ReleaseOne(net, i, o);
    }

    method ReleaseWaiters(name: Blob, o: Option<Object>)
      requires Valid()
      modifies this
      ensures Valid() && State() == Released(old(State()), name, o)
    {
      hide WaitInv, OrdersInv, ReleaseOne;
      ghost var net := State();
      ghost var verdict := (w: Wait) => if w.name == name then Release(o) else Keep;
      var i := 0;
      while i < |waiting|
        invariant 0 <= i <= |waiting| && Valid()
        invariant Sweep(State(), i, verdict) == Sweep(net, 0, verdict)
        decreases |waiting| - i
      {
        if waiting[i].name == name {
          ReleasedWaiting(State(), i, o);
          ReleaseFromWait(i, o);
        } else {
          i := i + 1;
        }
      }
    }

    // ----- the object caches

    method MarkObjectsDead(s: Socket, now: nat)
      requires Valid() && s in peers
      modifies this
      ensures Valid() && State() == HandleListBegin(old(State()), s, true, now)
    {
      ghost var net := State();
      assert OrderInv(peers[s]);
      hide WaitInv, OrdersInv, OrderInv;
      var p := peers[s];
      var objs := MarkAll(p, now);
      peers := peers[s := p.(objs := objs)];
      assert State() == HandleListBegin(net, s, true, now);
    }

    /** The loop of markObjectsDead. */
    static method MarkAll(p: Peer, now: nat) returns (objs: map<Blob, Object>)
      requires OrderInv(p)
      ensures objs == NetState.MarkObjectsDead(p, now).objs
    {
      hide MarkDead, OrderInv;
      objs := p.objs;
      var i := 0;
      while i < |p.order|
        invariant 0 <= i <= |p.order| && DeadUpTo(p, objs, i, now)
      {
        DeadNext(p, objs, i, now);
        hide DeadUpTo;
        var n := p.order[i];
        objs := objs[n := MarkDead(objs[n], now)];
        i := i + 1;
      }
      DeadDone(p, objs, now);
    }

    /** purgeDeadObjects. */
    method PurgeDeadObjects(s: Socket)
      requires Valid() && s in peers
      modifies this
      ensures Valid() && State() == Purged(old(State()), s)
    {
      ghost var net := State();
      assert OrderInv(peers[s]);
      hide WaitInv, OrdersInv, KeepIn;
      var p := peers[s];
      var objs, order := EraseOthers(p.objs, p.order, LiveNames(p.objs));
      peers := peers[s := p.(objs := objs, order := order)];
      assert State() == Purged(net, s);
    }

    // ----- object lists

    /** The inner loop of sendObjectListToPeer: append the objects of one peer,
        all or those that are new, and, if clear is set, mark them old. */
    method AppendObjects(p: Peer, all: bool, clear: bool, begin: Blob, msg: Blob, sent: seq<Object>)
      returns (p': Peer, msg': Blob, sent': seq<Object>)
      requires OrderInv(p) && msg == begin + ObjectFrames(sent)
      ensures sent' == sent + Chosen(ObjectsOf(p, p.order), all)
      ensures msg' == begin + ObjectFrames(sent')
      ensures p' == if clear then ClearNew(p) else p
    {
      AppendingNone(p, all, begin, sent, msg);
      hide EncodeObject, ObjectFrames, ObjectsOf, Appending, ClearNew, OrderInv, Chosen;
      var objs, oi := p.objs, 0;
      msg', sent' := msg, sent;
      while oi < |p.order|
        invariant 0 <= oi <= |p.order|
        invariant Appending(p, oi, all, begin, sent, sent', msg')
        invariant Marking(p, objs, oi, clear)
      {
        MarkingNext(p, objs, oi, clear);
        AppendNext(p, oi, all, begin, sent, sent', msg');
        hide Marking;
        var o := objs[p.order[oi]];
        if all || o.flags.isNew {
          msg' := msg' + EncodeObject(o, o.lastreq > 0);
          sent' := sent' + [o];
          if clear {
            objs := objs[p.order[oi] := o.(flags := o.flags.(isNew := false))];
          }
        } else {
          MarkedAlready(objs, p.order[oi]);
        }
        oi := oi + 1;
      }
      AppendingDone(p, all, begin, sent, sent', msg');
      MarkingDone(p, objs, clear);
      hide Marking;
      p' := p.(objs := objs);
    }

    /** The first pass of sendObjectListToPeer. */
    method CountObjects(ss: seq<Socket>) returns (numobjs: nat)
      requires forall s | s in ss :: s in peers && OrderInv(peers[s])
      ensures numobjs == |ObjectsOfPeers(peers, ss)|
    {
      hide OrderInv;
      numobjs := 0;
      var pi := 0;
      while pi < |ss|
        invariant 0 <= pi <= |ss| && numobjs == |ObjectsOfPeers(peers, ss[..pi])|
      {
        CountStep(peers, ss, pi);
        numobjs := numobjs + |peers[ss[pi]].order|;
        pi := pi + 1;
      }
      assert ss[..pi] == ss;
    }

    /** The second pass: append the objects of all peers. */
    method AppendAllObjects(ss: seq<Socket>, all: bool, clear: bool, begin: Blob)
      returns (msg: Blob, sent: seq<Object>)
      requires forall s | s in ss :: s in peers && OrderInv(peers[s])
      requires forall i, j | 0 <= i < j < |ss| :: ss[i] < ss[j]
      modifies this`peers
      ensures sent == Chosen(ObjectsOfPeers(old(peers), ss), all) && msg == begin + ObjectFrames(sent)
      ensures ClearedUpTo(old(peers), peers, ss, clear)
    {
      hide OrderInv, ObjectsOfPeers, ClearedUpTo, ObjectFrames, Chosen;
      ghost var before := peers;
      msg, sent := begin, [];
      ListedNone(before, ss, all, clear, begin);
      var pi := 0;
      while pi < |ss|
        invariant 0 <= pi <= |ss| && Listed(before, peers, ss[..pi], all, clear, begin, msg, sent)
      {
        ListedNext(before, peers, ss, pi, all, clear, begin, msg, sent);
        hide Listed, ClearNew, ObjectsOf;
        var p;
        p, msg, sent := AppendObjects(peers[ss[pi]], all, clear, begin, msg, sent);
        if clear {
          peers := peers[ss[pi] := p];
        }
        pi := pi + 1;
      }
      assert ss[..pi] == ss;
    }

    /** The two passes together; sent records what the bytes tell of. */
    method BuildList(ss: seq<Socket>, all: bool, clear: bool)
      returns (msg: Blob, sent: seq<Object>, numobjs: nat)
      requires forall s | s in ss :: s in peers && OrderInv(peers[s])
      requires forall i, j | 0 <= i < j < |ss| :: ss[i] < ss[j]
      modifies this`peers
      ensures sent == Chosen(ObjectsOfPeers(old(peers), ss), all)
      ensures numobjs == |ObjectsOfPeers(old(peers), ss)| && msg == UpdateBytes(numobjs, sent, all)
      ensures ClearedUpTo(old(peers), peers, ss, clear)
    {
      hide OrderInv, ObjectsOfPeers, ClearedUpTo, EncodeListBegin, EncodeListEnd, ObjectFrames, Chosen;
      numobjs := CountObjects(ss);
      msg, sent := AppendAllObjects(ss, all, clear, EncodeListBegin(numobjs, all));
      msg := msg + EncodeListEnd(|sent|, all);
    }

    /** sendObjectListToPeer. */
    method SendObjectListToPeer(all: bool, clear: bool) returns (msg: Blob, sent: seq<Object>, numobjs: nat)
      requires Valid()
      modifies this`peers
      ensures Valid() && sent == Chosen(AllObjects(old(State())), all)
      ensures numobjs == |AllObjects(old(State()))| && msg == UpdateBytes(numobjs, sent, all)
      ensures State() == if clear then ClearNewFlags(old(State())) else old(State())
    {
      ghost var net := State();
      hide WaitInv, OrdersInv, OrderInv, UpdateBytes, SortedKeys, ObjectsOfPeers, ClearedUpTo, ClearNewFlags;
      hide ClearNew, Chosen;
      AllOrdered(net, SortedKeys(peers.Keys));
      msg, sent, numobjs := BuildList(SortedKeys(peers.Keys), all, clear);
      ClearedAll(net, State(), SortedKeys(net.peers.Keys), clear);
    }

    /** Chain a message that was built to the write queue of a peer. */
    method Chain(s: Socket, msg: Blob, q: Queued)
      requires Valid() && s in peers && msg == Data(q)
      modifies this`peers
      ensures Valid() && State() == Queue(old(State()), s, q)
    {
      ghost var net := State();
      assert OrderInv(peers[s]);
      hide WaitInv, OrdersInv, Data;
      peers := peers[s := peers[s].(sendq := peers[s].sendq + [msg], log := peers[s].log + [q])];
      assert State() == Queue(net, s, q);
    }

    /** One turn of sendObjectListToPeers. */
    method NotifyPeer(s: Socket, all: bool)
      requires Valid() && s in peers
      modifies this`peers
      ensures Valid() && State() == SendList(old(State()), s, all)
    {
      hide WaitInv, OrdersInv, Queue, ClearNewFlags, AllObjects, Chosen, UpdateBytes, Data;
      ghost var net := State();
      var full := !peers[s].updated || all;
      AllChosen(AllObjects(net));
      var msg, sent, numobjs := SendObjectListToPeer(full, true);
      UpdateData(sent, numobjs);
      Chain(s, msg, if full then Listing(sent) else News(sent, numobjs));
      peers := peers[s := Updated(peers[s])];
      assert State() == SendList(net, s, all);
    }

    method SendObjectListToPeers(all: bool)
      requires Valid()
      modifies this`peers
      ensures Valid() && State() == SendListToPeers(old(State()), SortedKeys(old(peers).Keys), all)
    {
      hide WaitInv, OrdersInv, SendList;
      ghost var net := State();
      var ss := SortedKeys(peers.Keys);
      hide SortedKeys;
      while ss != []
        invariant Valid() && peers.Keys == net.peers.Keys
        invariant forall s | s in ss :: s in peers
        invariant SendListToPeers(State(), ss, all) == SendListToPeers(net, SortedKeys(net.peers.Keys), all)
        decreases |ss|
      {
        hide Sound;
        if peers[ss[0]].update {
          NotifyPeer(ss[0], all);
        }
        ss := ss[1..];
      }
    }

    // ----- messages

    method CacheObject(s: Socket, name: Blob, o: Object)
      requires Valid() && s in peers
      modifies this`peers
      ensures Valid() && State() == Cache(old(State()), s, name, o)
    {
      ghost var net := State();
      PutObjectOrder(peers[s], name, o) by { assert OrderInv(peers[s]); }
      hide WaitInv, OrdersInv;
      peers := peers[s := PutObject(peers[s], name, o)];
      assert State() == Cache(net, s, name, o);
    }

    method AnswerFrom(s: Socket, name: Blob, k: Socket, now: nat) returns (msg: Blob, reply: Option<Queued>)
      requires Valid() && s in peers && k in peers && name in peers[k].objs
      modifies this
      ensures var h := NetSteps.AnswerFrom(old(State()), s, name, k, now);
        Valid() && State() == h.net && reply == h.reply && h.ok
      ensures msg == if reply.None? then [] else Data(reply.value)
    {
      hide WaitInv, OrdersInv, Cache, Deferred;
      var o := peers[k].objs[name].(lastreq := now);
      CacheObject(k, name, o);
      if (o.rawdata == [] || o.flags.stale) && !o.flags.IsScalar() {
        WaitForData(s, name, k, now);
        msg, reply := [], None;
      } else {
        msg, reply := EncodeObject(o, true), Some(Reply(name, Some(o)));
      }
    }

    /** The GET_OBJECT case of onMessage. */
    method OnGetObject(s: Socket, name: Blob, now: nat) returns (msg: Blob, reply: Option<Queued>)
      requires Valid() && s in peers
      modifies this
      ensures var h := HandleGet(old(State()), s, name, now);
        Valid() && State() == h.net && reply == h.reply && h.ok
      ensures msg == if reply.None? then [] else Data(reply.value)
    {
      ghost var net := State();
      assert OrderInv(peers[s]);
      hide WaitInv, OrdersInv, NetSteps.AnswerFrom, EncodeObject;
      peers := peers[s := AskedBy(peers[s], name)];
      assert State() == Asked(net, s, name);
      var owner := FindObject(name);
      match owner
      case None => msg, reply := EncodeNone(name), Some(Reply(name, None));
      case Some(k) => msg, reply := AnswerFrom(s, name, k, now);
    }

    /** The OBJECT case of onMessage. */
    method OnObject(s: Socket, m: Message)
      requires Valid() && s in peers && m.ObjectReply?
      modifies this
      ensures Valid() && State() == HandleObject(old(State()), s, m)
    {
      ghost var net := State();
      assert OrderInv(peers[s]);
      hide WaitInv, OrdersInv, Cache, Requested, Released;
      peers := peers[s := AsSource(peers[s])];
      assert State() == SetPeer(net, s, AsSource(net.peers[s]));
      var o := ReceivedObject(CachedOrFresh(peers[s], m.name), m);
      CacheObject(s, m.name, o);
      if o.lastreq > 0 && m.data == [] && !o.flags.IsScalar() {
        RequestObjectData(s, m.name);
      }
      if m.data != [] {
        ReleaseWaiters(m.name, Some(o));
      }
    }

    /** The NONE case of onMessage. */
    method OnNone(s: Socket, name: Blob)
      requires Valid() && s in peers
      modifies this
      ensures Valid() && State() == HandleNone(old(State()), s, name)
    {
      ghost var net := State();
      assert OrderInv(peers[s]);
      hide WaitInv, OrdersInv, Cache, Purged, Released;
      peers := peers[s := AsSource(peers[s])];
      assert State() == SetPeer(net, s, AsSource(net.peers[s]));
      if name in peers[s].objs {
        var o := peers[s].objs[name];
        CacheObject(s, name, o.(flags := o.flags.(dead := true)));
        PurgeDeadObjects(s);
      }
      ReleaseWaiters(name, None);
    }

    /** The LIST_END case of onMessage. */
    method OnListEnd(s: Socket, full: bool)
      requires Valid() && s in peers
      modifies this
      ensures Valid() && State() == HandleListEnd(old(State()), s, full)
    {
      ghost var net := State();
      if full {
        PurgeDeadObjects(s);
      }
      ghost var n := State();
      assert OrderInv(peers[s]);
      hide WaitInv, OrdersInv, Purged;
      flush := true;
      assert State() == Flagged(n);
      peers := peers[s := Counted(peers[s])];
      assert State() == CountUpdate(Flagged(n), s);
    }

    method OnUpdateMe(s: Socket)
      requires Valid() && s in peers
      modifies this`peers
      ensures OrderInv(old(peers)[s])
      ensures Valid() && State() == SetPeer(old(State()), s, WantsUpdates(old(peers)[s]))
    {
      ghost var net := State();
      assert OrderInv(peers[s]);
      hide WaitInv, OrdersInv;
      peers := peers[s := WantsUpdates(peers[s])];
      assert State() == SetPeer(net, s, WantsUpdates(net.peers[s]));
    }

    /** The replies another node may send. */
    method OnReply(s: Socket, m: Message, now: nat)
      requires Valid() && s in peers && (m.ListBegin? || m.ListEnd? || m.ObjectReply? || m.NoneReply?)
      modifies this
      ensures Valid()
      ensures m.ListBegin? ==> State() == HandleListBegin(old(State()), s, m.full, now)
      ensures m.ListEnd? ==> State() == HandleListEnd(old(State()), s, m.full)
      ensures m.ObjectReply? ==> State() == HandleObject(old(State()), s, m)
      ensures m.NoneReply? ==> State() == HandleNone(old(State()), s, m.name)
    {
      hide WaitInv, OrdersInv, HandleObject, HandleNone, HandleListEnd;
      match m
      case ListBegin(full) =>
        if full {
          MarkObjectsDead(s, now);
        }
      case ListEnd(full) => OnListEnd(s, full);
      case ObjectReply(_, _, _, _, _, _) => OnObject(s, m);
      case NoneReply(name) => OnNone(s, name);
    }

    method OnMessage(s: Socket, d: Blob, now: nat) returns (msg: Blob, reply: Option<Queued>, valid: bool)
      requires Valid() && s in peers && |d| >= 8
      modifies this
      ensures Valid() && Handled(State(), reply, valid) == NetSteps.OnMessage(old(State()), s, d, now)
      ensures msg == if reply.None? then [] else Data(reply.value)
    {
      hide WaitInv, OrdersInv, Decode, AllObjects, Data, UpdateBytes, Chosen, SetPeer;
      hide HandleGet, HandleObject, HandleNone, HandleListBegin, HandleListEnd;
      msg, reply, valid := [], None, true;
      match Decode(d)
      case UpdateMe => OnUpdateMe(s);
      case ListObjects =>
        var sent, numobjs;
        AllChosen(AllObjects(State()));
        msg, sent, numobjs := SendObjectListToPeer(true, false);
        UpdateData(sent, numobjs);
        reply := Some(Listing(sent));
      case GetObject(name) => msg, reply := OnGetObject(s, name, now);
      case Corrupt => valid := false;
      case _ => OnReply(s, Decode(d), now);
    }

    // ----- input and output

    /** One message of onPeerData, with its reply chained. */
    method DispatchMessage(s: Socket, d: Blob, now: nat) returns (valid: bool)
      requires Valid() && s in peers && |d| >= 8
      modifies this
      ensures Valid() && State() == Dispatch(old(State()), s, d, now) && valid == !Decode(d).Corrupt?
    {
      hide WaitInv, OrdersInv, Queue, Data, NetSteps.OnMessage;
      MessageValid(State(), s, d, now);
      var msg, reply;
      msg, reply, valid := OnMessage(s, d, now);
      if reply.Some? {
        Chain(s, msg, reply.value);
      }
    }

    method TakeIncoming(s: Socket, bytes: Blob) returns (data: Blob)
      requires Valid() && s in peers
      modifies this`peers
      ensures Valid() && State() == Opened(old(State()), s) && data == old(peers)[s].incoming + bytes
    {
      ghost var net := State();
      assert OrderInv(peers[s]);
      hide WaitInv, OrdersInv;
      data := peers[s].incoming + bytes;
      peers := peers[s := TakeInput(peers[s])];
      assert State() == Opened(net, s);
    }

    method ReturnRest(s: Socket, ghost frames: seq<Blob>, rest: Blob, closed: bool)
      requires Valid() && s in peers
      modifies this`peers
      ensures Valid() && State() == Finish(Kept(old(State()), frames, rest), s, closed)
    {
      ghost var net := State();
      assert OrderInv(peers[s]);
      hide WaitInv, OrdersInv;
      peers := peers[s := PutBack(peers[s], rest, closed)];
      assert State() == Finish(Kept(net, frames, rest), s, closed);
    }

    /** What the message loop does with the message at its position: give the
        peer up, stop for want of bytes, or dispatch it and go on. */
    method ProcessNext(s: Socket, rest: Blob, clock: Clock, turn: nat) returns (lost: bool, msglen: nat)
      requires Valid() && s in peers && |rest| >= 4 && peers[s].waiting < MAX_PEER_WAITREQS
      modifies this
      ensures Valid() && msglen <= |rest| && (lost <==> s !in peers)
      ensures lost ==> var o := Process(old(State()), s, rest, clock, turn); o.Lost? && o.net == State()
      ensures !lost && msglen == 0 ==>
                State() == old(State()) && Process(State(), s, rest, clock, turn) == Kept(State(), [], rest)
      ensures !lost && msglen > 0 ==>
        Process(old(State()), s, rest, clock, turn)
          == Prepend([rest[..msglen]], Process(State(), s, rest[msglen..], clock, turn + 1))
    {
      hide WaitInv, OrdersInv, Dispatch, NetState.LosePeer, Decode;
      msglen := Word(rest, 0);
      if msglen >= MESSAGE_SIZE_LIMIT || (msglen < 8 && msglen <= |rest|) {
        LosePeer(s);
        return true, 0;
      }
      if |rest| < msglen {
        return false, 0;
      }
      lost := false;
      var valid := DispatchMessage(s, rest[..msglen], clock(turn));
      if !valid {
        LosePeer(s);
        return true, 0;
      }
    }

    /** The loop of onPeerData over the bytes of the input buffer. */
    method ProcessInput(s: Socket, data: Blob, clock: Clock) returns (lost: bool, consumed: nat)
      requires Valid() && s in peers
      modifies this
      ensures Valid() && consumed <= |data| && (lost <==> s !in peers)
      ensures var o := Process(old(State()), s, data, clock, 0);
        if lost then o.Lost? && o.net == State() else o == Kept(State(), o.frames, data[consumed..])
    {
      hide WaitInv, OrdersInv, Sound, Process, Processing;
      ghost var n0, frames := State(), [];
      var msglen: nat := 1;
      var turn := 0;
      consumed := 0;
      ProcessingStarts(n0, s, data, clock);
      while |data| - consumed >= 4 && peers[s].waiting < MAX_PEER_WAITREQS && msglen > 0
        invariant 0 <= consumed <= |data| && Valid() && s in peers
        invariant turn == |frames| && Processing(n0, State(), s, data, consumed, frames, clock)
        invariant msglen == 0 ==>
          Process(State(), s, data[consumed..], clock, turn) == Kept(State(), [], data[consumed..])
        decreases |data| - consumed, msglen
      {
        ghost var before := State();
        lost, msglen := ProcessNext(s, data[consumed..], clock, turn);
        if lost {
          ProcessingLost(n0, before, s, data, consumed, frames, clock);
          return;
        }
        if msglen > 0 {
          SliceTwice(data, consumed, msglen);
          ProcessingNext(n0, before, State(), s, data, consumed, consumed + msglen, frames, clock);
          frames := frames + [data[consumed..consumed + msglen]];
          consumed := consumed + msglen;
          turn := turn + 1;
        }
      }
      ProcessingStops(n0, State(), s, data, consumed, frames, msglen, clock);
      lost := false;
    }

    /** The input half of onPeerData; lost says that the peer was given up. */
    method OnPeerRead(s: Socket, bytes: Blob, closed: bool, clock: Clock) returns (lost: bool)
      requires Valid() && s in peers
      modifies this
      ensures Valid() && State() == Receive(old(State()), s, bytes, closed, clock, 0)
      ensures lost <==> s !in peers
    {
      ghost var net := State();
      hide WaitInv, OrdersInv, Opened, Process, SetPeer;
      var data := TakeIncoming(s, bytes);
      ghost var n0 := State();
      var consumed;
      lost, consumed := ProcessInput(s, data, clock);
      if !lost {
        ReturnRest(s, Process(n0, s, data, clock, 0).frames, data[consumed..], closed);
      }
    }

    /** The output half of onPeerData. */
    method OnPeerWrite(s: Socket, accepts: seq<nat>)
      requires Valid() && s in peers
      requires peers[s].sendq != [] ==> peers[s].sendpos <= |peers[s].sendq[0]|
      modifies this`peers
      ensures Valid() && State() == WriteTo(old(State()), s, accepts)
    {
      ghost var net := State();
      WriteKeeps(peers[s], accepts);
      assert OrderInv(peers[s]) && OrderInv(Write(peers[s], accepts));
      hide WaitInv, OrdersInv, OrderInv;
      var p := WriteBuckets(peers[s], accepts);
      peers := peers[s := p];
      assert State() == WriteTo(net, s, accepts);
    }

    // ----- the main loop

    method UpdateMask(s: Socket)
      requires Valid() && s in peers
      modifies this
      ensures Valid() && State() == NetSteps.UpdateMask(old(State()), s)
    {
      ghost var net := State();
      assert OrderInv(peers[s]);
      hide WaitInv, OrdersInv, NetState.LosePeer;
      if !peers[s].connected {
        return;
      }
      peers := peers[s := WithMask(peers[s])];
      assert State() == SetPeer(net, s, WithMask(net.peers[s]));
      if peers[s].mask == Mask(false, false, true) && peers[s].waiting == 0 {
        assert peers[s].sendq == [];
        LosePeer(s);
      }
    }

    method UpdatePeerMasks()
      requires Valid()
      modifies this
      ensures Valid() && State() == UpdateMasks(old(State()), SortedKeys(old(peers).Keys))
    {
      hide WaitInv, OrdersInv, NetSteps.UpdateMask;
      ghost var net := State();
      var ss := SortedKeys(peers.Keys);
      hide SortedKeys;
      while ss != []
        invariant Valid()
        invariant forall s | s in ss :: s in peers
        invariant forall i, j | 0 <= i < j < |ss| :: ss[i] < ss[j]
        invariant UpdateMasks(State(), ss) == UpdateMasks(net, SortedKeys(net.peers.Keys))
        decreases |ss|
      {
        hide Sound;
        assert ss[0] !in ss[1..];
        UpdateMask(ss[0]);
        ss := ss[1..];
      }
    }

    /** The release of those who have waited for too long. */
    method ReleaseOverdue(now: nat, waitStale: nat)
      requires Valid()
      modifies this
      ensures Valid() && State() == NetSteps.ReleaseOverdue(old(State()), now, waitStale)
    {
      ghost var net := State();
      ghost var verdict := TimeoutVerdict(net, now - WAIT_MAX, now - waitStale);
      hide WaitInv, OrdersInv, ReleaseOne, Sweep, TimeoutVerdict, OnlyQueues, Overdue, FindAnywhere;
      var i := 0;
      OverdueStarts(net);
      while i < |waiting|
        invariant 0 <= i <= |waiting| && Valid()
        invariant OnlyQueues(net, State())
        invariant Sweep(State(), i, verdict) == Sweep(net, 0, verdict)
        decreases |waiting| - i
      {
        OverdueStep(net, State(), i, now, waitStale);
        hide Sound;
        var w := waiting[i];
        var o := FindInAnyPeer(w.name);
        if Overdue(w, o, now, waitStale) {
          ReleaseFromWait(i, o);
        } else {
          i := i + 1;
        }
      }
      SweepEnds(State(), verdict);
    }

    method FlushIfDue(now: nat)
      requires Valid()
      modifies this
      ensures Valid() && State() == NetSteps.FlushIfDue(old(State()), now)
    {
      hide WaitInv, OrdersInv, SendListToPeers;
      ghost var net := State();
      if flush && now > nextFlush {
        flush := false;
        nextFlush := now + FLUSH_INTERVAL;
        assert State() == StartFlush(net, now);
        SendObjectListToPeers(true);
      }
    }

    /** The body of run() after each dispatch of events. */
    method RunOnce(now: nat, waitStale: nat)
      requires Valid()
      modifies this
      ensures Valid() && State() == Tick(old(State()), now, waitStale)
    {
      hide WaitInv, OrdersInv, NetSteps.FlushIfDue, UpdateMasks, NetSteps.ReleaseOverdue, SortedKeys;
      FlushIfDue(now);
      UpdatePeerMasks();
      ReleaseOverdue(now, waitStale);
    }

    // ----- local objects

    method UpdateLocalObject(o: Object)
      requires Valid() && LOCAL in peers
      modifies this
      ensures Valid() && State() == UpdateLocal(old(State()), o)
    {
      hide WaitInv, OrdersInv, Cache;
      var name := FullName(o);
      if name in peers[LOCAL].objs {
        CacheObject(LOCAL, name, o.(lastreq := peers[LOCAL].objs[name].lastreq));
      } else {
        CacheObject(LOCAL, name, o);
      }
    }

    method RemoveLocalExcept(known: set<Blob>) returns (removed: bool)
      requires Valid() && LOCAL in peers
      modifies this
      ensures Valid() && State() == NetSteps.RemoveLocalExcept(old(State()), known)
      ensures removed <==> exists n :: n in old(peers)[LOCAL].objs && n !in peers[LOCAL].objs
    {
      ghost var net := State();
      var p := peers[LOCAL];
      assert OrderInv(p);
      hide WaitInv, OrdersInv, KeepIn, FullName;
      var objs, order := EraseOthers(p.objs, p.order, KnownNames(p.objs, known));
      peers := peers[LOCAL := p.(objs := objs, order := order)];
      removed := !(p.objs.Keys <= objs.Keys);
      assert State() == NetSteps.RemoveLocalExcept(net, known);
    }
  }

  lemma DeferredSteps(net: Net, s: Socket, name: Blob, owner: Socket, now: nat)
    requires Sound(net) && s in net.peers && owner in net.peers
    ensures Deferred(net, s, name, owner, now) == AddWait(Requested(net, owner, name), s, Wait(now, name, [], s))
  {
    SoundQueues(net, RequestObjectData(net, owner, name));
    SoundQueues(net, WaitForData(net, s, name, owner, now));
    hide WaitInv, OrdersInv, Data, AddWait, OnlyQueues;
  }

  predicate Overdue(w: Wait, o: Option<Object>, now: nat, waitStale: nat) {
    w.time < now - WAIT_MAX || (w.time < now - waitStale && o.Some? && o.value.flags.stale)
  }

  lemma OverdueStarts(net: Net)
    ensures OnlyQueues(net, net)
  {
  }

  lemma SweepEnds(net: Net, verdict: Wait -> Verdict)
    requires WaitInv(net)
    ensures Sweep(net, |net.waiting|, verdict) == net
  {
  }

  lemma OverdueVerdict(net: Net, n: Net, w: Wait, now: nat, waitStale: nat)
    requires OnlyQueues(net, n)
    ensures var o := FindAnywhere(n.peers, w.name);
      TimeoutVerdict(net, now - WAIT_MAX, now - waitStale)(w) ==
      if Overdue(w, o, now, waitStale) then Release(o) else Keep
  {
    SameAnswers(net, n, w.name);
    hide OnlyQueues, FindAnywhere;
  }

  lemma SweepStep(n: Net, i: nat, verdict: Wait -> Verdict)
    requires WaitInv(n) && i < |n.waiting|
    ensures match verdict(n.waiting[i])
      case Keep => Sweep(n, i, verdict) == Sweep(n, i + 1, verdict)
      case Release(o) => Sweep(n, i, verdict) == Sweep(ReleaseOne(n, i, o), i, verdict)
  {
    hide WaitInv, ReleaseOne;
  }

  /** One turn of the loop over the wait list. */
  lemma OverdueStep(net: Net, n: Net, i: nat, now: nat, waitStale: nat)
    requires Sound(n) && OnlyQueues(net, n) && i < |n.waiting|
    ensures var w := n.waiting[i];
      var o := FindAnywhere(n.peers, w.name);
      var verdict := TimeoutVerdict(net, now - WAIT_MAX, now - waitStale);
      && (Overdue(w, o, now, waitStale) ==>
           && Sweep(n, i, verdict) == Sweep(ReleaseOne(n, i, o), i, verdict)
           && |ReleaseOne(n, i, o).waiting| == |n.waiting| - 1
           && OnlyQueues(net, ReleaseOne(n, i, o)))
      && (!Overdue(w, o, now, waitStale) ==> Sweep(n, i, verdict) == Sweep(n, i + 1, verdict))
  {
    var o := FindAnywhere(n.peers, n.waiting[i].name);
    OverdueVerdict(net, n, n.waiting[i], now, waitStale);
    SweepStep(n, i, TimeoutVerdict(net, now - WAIT_MAX, now - waitStale));
    ReleasedWaiting(n, i, o);
    OnlyQueuesReleased(net, n, i, o);
    hide WaitInv, OrdersInv, OnlyQueues, ReleaseOne, FindAnywhere, Sweep, TimeoutVerdict, Overdue;
  }

  /** The write loop of onPeerData on the queue of one peer. */
  method WriteBuckets(p: Peer, accepts: seq<nat>) returns (q: Peer)
    requires p.sendq != [] ==> p.sendpos <= |p.sendq[0]|
    ensures q == Write(p, accepts)
  {
    q := p;
    var offers := accepts;
    while q.sendq != []
      invariant q.sendq != [] ==> q.sendpos <= |q.sendq[0]|
      invariant Write(q, offers) == Write(p, accepts)
      decreases |q.sendq|, |offers|
    {
      var len := |q.sendq[0]| - q.sendpos;
      var offer := if offers == [] then 0 else offers[0];
      var done := if offer < len then offer else len;
      q := Sent(q, done);
      if done == 0 && len > 0 {
        return;
      }
      offers := if len == 0 || offers == [] then offers else offers[1..];
    }
  }

  /** What a name leads to does not depend on queues and waits. */
  lemma SameAnswers(net: Net, r: Net, name: Blob)
    requires OnlyQueues(net, r)
    ensures FindAnywhere(r.peers, name) == FindAnywhere(net.peers, name)
  {
    hide SortedKeys, FirstOwner;
    assert forall s | s in net.peers :: net.peers[s].objs == r.peers[s].objs;
    hide OnlyQueues;
    SameOwner(net.peers, r.peers, SortedKeys(net.peers.Keys), name);
  }

  lemma OnlyQueuesReleased(net: Net, n: Net, i: nat, o: Option<Object>)
    requires OnlyQueues(net, n) && WaitInv(n) && i < |n.waiting|
    ensures OnlyQueues(net, ReleaseOne(n, i, o))
  {
    hide ReleaseOne, WaitInv;
  }

  /** The loop so far has dispatched frames and is at position consumed. */
  ghost predicate Processing(n0: Net, n: Net, s: Socket, data: Blob, consumed: nat, frames: seq<Blob>, clock: Clock)
    requires Sound(n0) && s in n0.peers && Sound(n) && s in n.peers && consumed <= |data|
  {
    Process(n0, s, data, clock, 0) == Prepend(frames, Process(n, s, data[consumed..], clock, |frames|))
  }

  lemma ProcessingStarts(n0: Net, s: Socket, data: Blob, clock: Clock)
    requires Sound(n0) && s in n0.peers
    ensures Processing(n0, n0, s, data, 0, [], clock)
  {
    assert data[0..] == data;
    hide Process;
    var o := Process(n0, s, data, clock, 0);
    assert [] + o.frames == o.frames;
  }

  lemma SliceTwice(data: Blob, i: nat, j: nat)
    requires i + j <= |data|
    ensures data[i..][..j] == data[i..i + j] && data[i..][j..] == data[i + j..]
  {
  }

  lemma ProcessingNext(
    n0: Net, n: Net, n': Net, s: Socket, data: Blob, consumed: nat, end: nat, frames: seq<Blob>, clock: Clock)
    requires Sound(n0) && s in n0.peers && Sound(n) && s in n.peers && Sound(n') && s in n'.peers
    requires consumed <= end <= |data| && Processing(n0, n, s, data, consumed, frames, clock)
    requires Process(n, s, data[consumed..], clock, |frames|)
          == Prepend([data[consumed..end]], Process(n', s, data[end..], clock, |frames| + 1))
    ensures Processing(n0, n', s, data, end, frames + [data[consumed..end]], clock)
  {
    hide Process, Sound, Prepend;
    PrependTwice(frames, [data[consumed..end]], Process(n', s, data[end..], clock, |frames| + 1));
  }

  lemma ProcessingLost(n0: Net, n: Net, s: Socket, data: Blob, consumed: nat, frames: seq<Blob>, clock: Clock)
    requires Sound(n0) && s in n0.peers && Sound(n) && s in n.peers && consumed <= |data|
    requires Processing(n0, n, s, data, consumed, frames, clock)
    requires Process(n, s, data[consumed..], clock, |frames|).Lost?
    ensures var o := Process(n0, s, data, clock, 0);
      o.Lost? && o.net == Process(n, s, data[consumed..], clock, |frames|).net
  {
    hide Process;
  }

  lemma ProcessingStops(
    n0: Net, n: Net, s: Socket, data: Blob, consumed: nat, frames: seq<Blob>, msglen: nat, clock: Clock)
    requires Sound(n0) && s in n0.peers && Sound(n) && s in n.peers && consumed <= |data|
    requires Processing(n0, n, s, data, consumed, frames, clock)
    requires |data| - consumed < 4 || n.peers[s].waiting >= MAX_PEER_WAITREQS
      || Process(n, s, data[consumed..], clock, |frames|) == Kept(n, [], data[consumed..])
    ensures var o := Process(n0, s, data, clock, 0); o == Kept(n, o.frames, data[consumed..])
  {
    hide WaitInv, OrdersInv, Dispatch;
  }

  lemma MessageValid(net: Net, s: Socket, d: Blob, now: nat)
    requires Sound(net) && s in net.peers && |d| >= 8
    ensures NetSteps.OnMessage(net, s, d, now).ok == !Decode(d).Corrupt?
  {
    hide WaitInv, OrdersInv, Decode, HandleObject, HandleNone, HandleListBegin, HandleListEnd;
  }

  lemma UpdateData(objs: seq<Object>, known: nat)
    ensures Data(Listing(objs)) == UpdateBytes(|objs|, objs, true)
    ensures Data(News(objs, known)) == UpdateBytes(known, objs, false)
  {
    hide UpdateBytes;
  }

  /** A full list tells of all objects. */
  lemma {:induction false} AllChosen(objs: seq<Object>)
    ensures Chosen(objs, true) == objs
  {
    if objs != [] {
      AllChosen(objs[..|objs| - 1]);
    }
  }

  lemma ChosenPush(objs: seq<Object>, o: Object, all: bool)
    ensures Chosen(objs + [o], all) == Chosen(objs, all) + if all || o.flags.isNew then [o] else []
  {
    assert (objs + [o])[..|objs|] == objs;
  }

  lemma ChosenAppend(a: seq<Object>, init: seq<Object>, o: Object, all: bool)
    requires Chosen(a + init, all) == Chosen(a, all) + Chosen(init, all)
    ensures Chosen(a + (init + [o]), all) == Chosen(a, all) + Chosen(init + [o], all)
  {
    hide Chosen;
    Assoc(a, init, [o]);
    ChosenPush(a + init, o, all);
    ChosenPush(init, o, all);
    Assoc(Chosen(a, all), Chosen(init, all), if all || o.flags.isNew then [o] else []);
  }

  lemma {:induction false} ChosenConcat(a: seq<Object>, b: seq<Object>, all: bool)
    ensures Chosen(a + b, all) == Chosen(a, all) + Chosen(b, all)
  {
    if b == [] {
      assert a + b == a;
    } else {
      hide Chosen;
      var init, o := b[..|b| - 1], b[|b| - 1];
      ChosenConcat(a, init, all);
      ChosenAppend(a, init, o, all);
      assert b == init + [o];
    }
  }

  lemma AllOrdered(net: Net, ss: seq<Socket>)
    requires Sound(net) && forall s | s in ss :: s in net.peers
    ensures forall s | s in ss :: OrderInv(net.peers[s])
  {
  }

  lemma ClearedAll(net: Net, r: Net, ss: seq<Socket>, clear: bool)
    requires Sound(net) && ClearedUpTo(net.peers, r.peers, ss, clear) && forall s :: s in ss <==> s in net.peers
    requires r == net.(peers := r.peers)
    ensures r == if clear then ClearNewFlags(net) else net
  {
    hide WaitInv, OrdersInv, ClearNew;
    assert r.peers == if clear then ClearNewFlags(net).peers else net.peers;
  }

  /** The objects before position oi are marked old, if that is wanted. */
  ghost predicate Marking(p: Peer, objs: map<Blob, Object>, oi: nat, clear: bool) {
    && oi <= |p.order| && objs.Keys == p.objs.Keys
    && forall n | n in p.objs ::
         var o := p.objs[n];
         objs[n] == if clear && n in p.order[..oi] then o.(flags := o.flags.(isNew := false)) else o
  }

  lemma MarkingNext(p: Peer, objs: map<Blob, Object>, oi: nat, clear: bool)
    requires OrderInv(p) && Marking(p, objs, oi, clear) && oi < |p.order|
    ensures p.order[oi] in objs && objs[p.order[oi]] == p.objs[p.order[oi]]
    ensures var n := p.order[oi];
      Marking(p, if clear then objs[n := objs[n].(flags := objs[n].flags.(isNew := false))] else objs, oi + 1, clear)
  {
    var n := p.order[oi];
    assert n in p.objs && n !in p.order[..oi];
    assert p.order[..oi + 1] == p.order[..oi] + [n];
  }

  lemma MarkedAlready(objs: map<Blob, Object>, n: Blob)
    requires n in objs && !objs[n].flags.isNew
    ensures objs[n := objs[n].(flags := objs[n].flags.(isNew := false))] == objs
  {
    assert objs[n].(flags := objs[n].flags.(isNew := false)) == objs[n];
  }

  lemma MarkingDone(p: Peer, objs: map<Blob, Object>, clear: bool)
    requires OrderInv(p) && Marking(p, objs, |p.order|, clear)
    ensures p.(objs := objs) == if clear then ClearNew(p) else p
  {
    assert p.order[..|p.order|] == p.order;
    assert objs == if clear then ClearNew(p).objs else p.objs;
  }

  /** The first i objects of a peer are marked dead. */
  ghost predicate DeadUpTo(p: Peer, objs: map<Blob, Object>, i: nat, now: nat) {
    && i <= |p.order| && objs.Keys == p.objs.Keys
    && forall n | n in p.objs :: objs[n] == if n in p.order[..i] then MarkDead(p.objs[n], now) else p.objs[n]
  }

  lemma DeadNext(p: Peer, objs: map<Blob, Object>, i: nat, now: nat)
    requires OrderInv(p) && DeadUpTo(p, objs, i, now) && i < |p.order|
    ensures p.order[i] in objs && DeadUpTo(p, objs[p.order[i] := MarkDead(objs[p.order[i]], now)], i + 1, now)
  {
    hide MarkDead;
    var n := p.order[i];
    assert n !in p.order[..i];
    assert p.order[..i + 1] == p.order[..i] + [n];
  }

  lemma DeadDone(p: Peer, objs: map<Blob, Object>, now: nat)
    requires OrderInv(p) && DeadUpTo(p, objs, |p.order|, now)
    ensures objs == NetState.MarkObjectsDead(p, now).objs
  {
    hide MarkDead;
    assert p.order[..|p.order|] == p.order;
  }

  /** What has been appended for the first oi objects of a peer. */
  ghost predicate Appending(p: Peer, oi: nat, all: bool, begin: Blob,
                            sent: seq<Object>, sent': seq<Object>, msg: Blob) {
    && oi <= |p.order| && (forall n | n in p.order :: n in p.objs)
    && sent' == sent + Chosen(ObjectsOf(p, p.order[..oi]), all)
    && msg == begin + ObjectFrames(sent')
  }

  lemma AppendingNone(p: Peer, all: bool, begin: Blob, sent: seq<Object>, msg: Blob)
    requires OrderInv(p) && msg == begin + ObjectFrames(sent)
    ensures Appending(p, 0, all, begin, sent, sent, msg)
  {
    hide ObjectFrames;
  }

  lemma FramesNext(sent: seq<Object>, o: Object)
    ensures ObjectFrames(sent + [o]) == ObjectFrames(sent) + EncodeObject(o, o.lastreq > 0)
  {
    assert (sent + [o])[..|sent|] == sent;
    hide EncodeObject;
  }

  lemma ObjectsNext(p: Peer, oi: nat)
    requires oi < |p.order| && forall n | n in p.order :: n in p.objs
    ensures ObjectsOf(p, p.order[..oi + 1]) == ObjectsOf(p, p.order[..oi]) + [p.objs[p.order[oi]]]
  {
    assert p.order[..oi + 1][..oi] == p.order[..oi];
  }

  lemma AppendNext(p: Peer, oi: nat, all: bool, begin: Blob, sent: seq<Object>, sent': seq<Object>, msg: Blob)
    requires Appending(p, oi, all, begin, sent, sent', msg) && oi < |p.order|
    ensures var o := p.objs[p.order[oi]];
      if all || o.flags.isNew
      then Appending(p, oi + 1, all, begin, sent, sent' + [o], msg + EncodeObject(o, o.lastreq > 0))
      else Appending(p, oi + 1, all, begin, sent, sent', msg)
  {
    hide EncodeObject, ObjectsOf, ObjectFrames, Chosen;
    var o := p.objs[p.order[oi]];
    var before := ObjectsOf(p, p.order[..oi]);
    ObjectsNext(p, oi);
    ChosenPush(before, o, all);
    if all || o.flags.isNew {
      FramesNext(sent', o);
      Assoc(sent, Chosen(before, all), [o]);
      Assoc(begin, ObjectFrames(sent'), EncodeObject(o, o.lastreq > 0));
    } else {
      assert Chosen(before, all) + [] == Chosen(before, all);
    }
  }

  lemma AppendingDone(p: Peer, all: bool, begin: Blob, sent: seq<Object>, sent': seq<Object>, msg: Blob)
    requires Appending(p, |p.order|, all, begin, sent, sent', msg)
    ensures sent' == sent + Chosen(ObjectsOf(p, p.order), all) && msg == begin + ObjectFrames(sent')
  {
    assert p.order[..|p.order|] == p.order;
  }

  lemma {:induction false} ObjectsOfLength(p: Peer, order: seq<Blob>)
    requires forall n | n in order :: n in p.objs
    ensures |ObjectsOf(p, order)| == |order|
  {
    if order != [] {
      ObjectsOfLength(p, order[..|order| - 1]);
    }
  }

  lemma CountStep(peers: map<Socket, Peer>, ss: seq<Socket>, pi: nat)
    requires pi < |ss| && forall s | s in ss :: s in peers && OrderInv(peers[s])
    ensures var p := peers[ss[pi]];
      && ObjectsOfPeers(peers, ss[..pi + 1]) == ObjectsOfPeers(peers, ss[..pi]) + ObjectsOf(p, p.order)
      && |ObjectsOfPeers(peers, ss[..pi + 1])| == |ObjectsOfPeers(peers, ss[..pi])| + |p.order|
  {
    assert ss[..pi + 1][..pi] == ss[..pi];
    assert OrderInv(peers[ss[pi]]);
    ObjectsOfLength(peers[ss[pi]], peers[ss[pi]].order);
  }

  ghost predicate ClearedUpTo(before: map<Socket, Peer>, after: map<Socket, Peer>, done: seq<Socket>, clear: bool) {
    && after.Keys == before.Keys
    && forall s | s in before :: after[s] == if clear && s in done then ClearNew(before[s]) else before[s]
  }

  lemma ClearedNext(before: map<Socket, Peer>, after: map<Socket, Peer>, ss: seq<Socket>, pi: nat, clear: bool)
    requires pi < |ss| && ClearedUpTo(before, after, ss[..pi], clear)
    requires forall i, j | 0 <= i < j < |ss| :: ss[i] < ss[j]
    requires forall s | s in ss :: s in before
    ensures ss[pi] in after && after[ss[pi]] == before[ss[pi]]
    ensures ClearedUpTo(before, if clear then after[ss[pi] := ClearNew(before[ss[pi]])] else after, ss[..pi + 1], clear)
  {
    assert ss[pi] !in ss[..pi];
    assert ss[..pi + 1] == ss[..pi] + [ss[pi]];
  }

  /** What the second pass has done for the peers in done. */
  ghost predicate Listed(before: map<Socket, Peer>, after: map<Socket, Peer>, done: seq<Socket>, all: bool, clear: bool,
                         begin: Blob, msg: Blob, sent: seq<Object>) {
    && (forall s | s in done :: s in before && OrderInv(before[s]))
    && sent == Chosen(ObjectsOfPeers(before, done), all)
    && msg == begin + ObjectFrames(sent)
    && ClearedUpTo(before, after, done, clear)
  }

  lemma ListedNone(peers: map<Socket, Peer>, ss: seq<Socket>, all: bool, clear: bool, begin: Blob)
    ensures Listed(peers, peers, ss[..0], all, clear, begin, begin, [])
  {
  }

  lemma ListedNext(before: map<Socket, Peer>, after: map<Socket, Peer>, ss: seq<Socket>, pi: nat,
                   all: bool, clear: bool, begin: Blob, msg: Blob, sent: seq<Object>)
    requires pi < |ss| && Listed(before, after, ss[..pi], all, clear, begin, msg, sent)
    requires forall i, j | 0 <= i < j < |ss| :: ss[i] < ss[j]
    requires forall s | s in ss :: s in before && OrderInv(before[s])
    ensures var p := before[ss[pi]];
      && msg == begin + ObjectFrames(sent)
      && ss[pi] in after && after[ss[pi]] == p && OrderInv(p)
      && var sent' := sent + Chosen(ObjectsOf(p, p.order), all);
         Listed(before, if clear then after[ss[pi] := ClearNew(p)] else after, ss[..pi + 1], all, clear,
                begin, begin + ObjectFrames(sent'), sent')
  {
    hide ClearedUpTo, ObjectsOf, ObjectsOfPeers, ObjectFrames, ClearNew, OrderInv, Chosen;
    ClearedNext(before, after, ss, pi, clear);
    DoneInList(before, ss, pi);
    SentNext(before, ss, pi, all);
  }

  lemma SentNext(before: map<Socket, Peer>, ss: seq<Socket>, pi: nat, all: bool)
    requires pi < |ss| && forall s | s in ss :: s in before && OrderInv(before[s])
    ensures var p := before[ss[pi]];
      && OrderInv(p)
      && Chosen(ObjectsOfPeers(before, ss[..pi + 1]), all) ==
         Chosen(ObjectsOfPeers(before, ss[..pi]), all) + Chosen(ObjectsOf(p, p.order), all)
  {
    var p := before[ss[pi]];
    assert OrderInv(p);
    hide ObjectsOf, ObjectsOfPeers, Chosen;
    CountStep(before, ss, pi);
    ChosenConcat(ObjectsOfPeers(before, ss[..pi]), ObjectsOf(p, p.order), all);
  }

  lemma DoneInList(before: map<Socket, Peer>, ss: seq<Socket>, pi: nat)
    requires pi < |ss| && forall s | s in ss :: s in before && OrderInv(before[s])
    ensures forall s | s in ss[..pi + 1] :: s in before && OrderInv(before[s])
  {
    hide OrderInv;
  }

  /** The loop's position splits names into those kept and those to come. */
  ghost predicate Erasing(all: map<Blob, Object>, names: seq<Blob>, keep: set<Blob>,
                          objs: map<Blob, Object>, order: seq<Blob>, i: nat) {
    && i <= |order| && Indexes(order, objs)
    && KeepIn(order[..i], keep) == order[..i] && KeepIn(order, keep) == KeepIn(names, keep)
    && (forall n | n in objs :: n in all && objs[n] == all[n])
    && (forall n | n in all && n in keep :: n in objs)
  }

  lemma ErasingNext(all: map<Blob, Object>, names: seq<Blob>, keep: set<Blob>,
                    objs: map<Blob, Object>, order: seq<Blob>, i: nat)
    requires Erasing(all, names, keep, objs, order, i) && i < |order|
    ensures order[i] in keep ==> Erasing(all, names, keep, objs, order, i + 1)
    ensures order[i] !in keep ==> Erasing(all, names, keep, objs - {order[i]}, order[..i] + order[i + 1..], i)
  {
    hide Indexes, KeepIn;
    if order[i] in keep {
      KeepInNext(order, i, keep);
    } else {
      KeepInErase(order, i, keep);
      EraseIndexes(order, objs, i);
    }
  }

  lemma ErasingDone(all: map<Blob, Object>, names: seq<Blob>, keep: set<Blob>,
                    objs: map<Blob, Object>, order: seq<Blob>)
    requires Erasing(all, names, keep, objs, order, |order|)
    ensures objs == map n | n in all && n in keep :: all[n]
    ensures order == KeepIn(names, keep)
  {
    assert order[..|order|] == order;
    AllKept(order, objs, keep);
  }

  /** The loops that erase objects while iterating over them. */
  method EraseOthers(all: map<Blob, Object>, names: seq<Blob>, keep: set<Blob>)
    returns (objs: map<Blob, Object>, order: seq<Blob>)
    requires Indexes(names, all)
    ensures objs == map n | n in all && n in keep :: all[n]
    ensures order == KeepIn(names, keep)
  {
    objs, order := all, names;
    var i := 0;
    assert Erasing(all, names, keep, objs, order, i);
    while i < |order|
      invariant 0 <= i && Erasing(all, names, keep, objs, order, i)
      decreases |order| - i
    {
      ErasingNext(all, names, keep, objs, order, i);
      if order[i] in keep {
        i := i + 1;
      } else {
        objs := objs - {order[i]};
        order := order[..i] + order[i + 1..];
      }
    }
    ErasingDone(all, names, keep, objs, order);
  }
}
