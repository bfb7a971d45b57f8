/** The lists that a node sends to the peers that asked for updates: the full
    one, rarely, and the list of what is new. */
module NetFlush {
  import opened Bytes
  import opened Messages
  import opened Options
  import opened NetState
  import opened NetSteps
  import opened NetSync

  /** Objects without the mark that says they are new. */
  function Aged(objs: seq<Object>): seq<Object> {
    seq(|objs|, i requires 0 <= i < |objs| => objs[i].(flags := objs[i].flags.(isNew := false)))
  }

  lemma AgedConcat(a: seq<Object>, b: seq<Object>)
    ensures Aged(a + b) == Aged(a) + Aged(b)
  {
  }

  lemma AgedTwice(objs: seq<Object>)
    ensures Aged(Aged(objs)) == Aged(objs)
  {
  }

  lemma {:induction false} AgedObjects(p: Peer, q: Peer, order: seq<Blob>)
    requires forall n | n in order :: n in p.objs && n in q.objs
    requires q.objs == ClearNew(p).objs
    ensures ObjectsOf(q, order) == Aged(ObjectsOf(p, order))
  {
    if order != [] {
      AgedObjects(p, q, order[..|order| - 1]);
    }
  }

  lemma {:induction false} AgedPeers(a: map<Socket, Peer>, b: map<Socket, Peer>, ss: seq<Socket>)
    requires forall s | s in ss :: s in a && s in b && OrderInv(a[s]) && OrderInv(b[s])
    requires forall s | s in ss :: b[s].order == a[s].order && b[s].objs == ClearNew(a[s]).objs
    ensures ObjectsOfPeers(b, ss) == Aged(ObjectsOfPeers(a, ss))
  {
    if ss != [] {
      var init, s := ss[..|ss| - 1], ss[|ss| - 1];
      assert OrderInv(a[s]) && OrderInv(b[s]);
      AgedPeers(a, b, init);
      AgedObjects(a[s], b[s], a[s].order);
      hide Aged, OrderInv, ClearNew, ObjectsOf;
      AgedConcat(ObjectsOfPeers(a, init), ObjectsOf(a[s], a[s].order));
    }
  }

  lemma QueueIs(net: Net, s: Socket, q: Queued)
    requires Sound(net) && s in net.peers
    ensures Queue(net, s, q) == Update(net, s, Enqueue(net.peers[s], q))
  {
    assert OrderInv(net.peers[s]);
    hide WaitInv, OrdersInv, OrderInv, Data;
  }

  lemma SendListIs(net: Net, s: Socket, all: bool)
    requires Sound(net) && s in net.peers
    ensures var c := ClearNewFlags(net);
      SendList(net, s, all) ==
      Update(c, s, Updated(Enqueue(c.peers[s], ListFor(net.peers[s], AllObjects(net), all))))
  {
    var c, q := ClearNewFlags(net), ListFor(net.peers[s], AllObjects(net), all);
    QueueIs(c, s, q);
    SoundOrder(Queue(c, s, q), s);
    hide Sound, ClearNewFlags, AllObjects, ListFor, Data, OrderInv, Queue;
    UpdatedTwice(c, s, Enqueue(c.peers[s], q), Updated(Enqueue(c.peers[s], q)));
  }

  lemma UpdatedTwice(net: Net, s: Socket, p: Peer, q: Peer)
    ensures Update(Update(net, s, p), s, q) == Update(net, s, q)
  {
  }

  lemma ClearedIs(net: Net)
    requires Sound(net)
    ensures var c := ClearNewFlags(net);
      c.peers.Keys == net.peers.Keys && forall s | s in net.peers :: c.peers[s] == ClearNew(net.peers[s])
  {
    hide Sound, ClearNew;
  }

  /** One peer's turn touches no other queue, and makes all objects old. */
  lemma SendListOther(net: Net, s: Socket, t: Socket, all: bool)
    requires Sound(net) && s in net.peers && t in net.peers
    ensures var p, q := net.peers[t], SendList(net, s, all).peers[t];
      && (t != s ==> q.log == p.log && q.updated == p.updated)
      && q.update == p.update && q.order == p.order && q.objs == ClearNew(p).objs
  {
    SendListIs(net, s, all);
    ClearedIs(net);
    hide Sound, ClearNewFlags, SendList, Data, AllObjects, ListFor;
  }

  lemma ListAges(net: Net, s: Socket, all: bool)
    requires Sound(net) && s in net.peers
    ensures AllObjects(SendList(net, s, all)) == Aged(AllObjects(net))
  {
    hide Sound, OrderInv, SendList, ClearNew, SortedKeys, Aged, ObjectsOfPeers;
    var r := SendList(net, s, all);
    forall t | t in net.peers
      ensures OrderInv(net.peers[t]) && OrderInv(r.peers[t])
      ensures r.peers[t].order == net.peers[t].order && r.peers[t].objs == ClearNew(net.peers[t]).objs
    {
      SendListOther(net, s, t, all);
      SoundOrder(net, t);
      SoundOrder(r, t);
    }
    AgedPeers(net.peers, r.peers, SortedKeys(net.peers.Keys));
  }

  /** The first subscriber in ss. */
  function FirstSubscriber(peers: map<Socket, Peer>, ss: seq<Socket>): Option<Socket>
    requires forall s | s in ss :: s in peers
  {
    if ss == [] then None else if peers[ss[0]].update then Some(ss[0]) else FirstSubscriber(peers, ss[1..])
  }

  /** A peer with a list queued to it. */
  function Told(p: Peer, list: Option<Queued>): Peer {
    match list
    case None => p
    case Some(q) => p.(log := p.log + [q], sendq := p.sendq + [Data(q)], updated := true)
  }

  /** A list for a peer: the whole one if so asked or if it has had none yet, else
      what is new. Only in the first list sent can anything be new. */
  function ListOf(p: Peer, objs: seq<Object>, first: bool, all: bool): Queued {
    if all || !p.updated then Listing(if first then objs else Aged(objs))
    else News(if first then Chosen(objs, false) else [], |objs|)
  }

  /** What s is told when the peers in ss have their turns. */
  ghost function ListGiven(net: Net, ss: seq<Socket>, s: Socket, all: bool): Option<Queued>
    requires Sound(net) && s in net.peers && forall t | t in ss :: t in net.peers
  {
    if s in ss && net.peers[s].update then
      Some(ListOf(net.peers[s], AllObjects(net), FirstSubscriber(net.peers, ss) == Some(s), all))
    else None
  }

  ghost function AfterTurns(net: Net, ss: seq<Socket>, s: Socket, all: bool): Peer
    requires Sound(net) && s in net.peers && forall t | t in ss :: t in net.peers
  {
    var p := net.peers[s];
    Told(if FirstSubscriber(net.peers, ss).Some? then ClearNew(p) else p, ListGiven(net, ss, s, all))
  }

  lemma ClearedTwice(p: Peer, list: Option<Queued>)
    ensures ClearNew(Told(ClearNew(p), list)) == Told(ClearNew(p), list)
  {
    hide Data;
    var once, twice := ClearNew(p), ClearNew(Told(ClearNew(p), list));
    assert twice.objs == once.objs;
  }

  lemma SendListTells(net: Net, s: Socket, t: Socket, all: bool)
    requires Sound(net) && s in net.peers && t in net.peers
    ensures var r := SendList(net, s, all);
      && r == net.(peers := r.peers)
      && r.peers[t] == Told(ClearNew(net.peers[t]),
                            if t == s then Some(ListOf(net.peers[s], AllObjects(net), true, all)) else None)
  {
    SendListIs(net, s, all);
    ClearedIs(net);
    hide WaitInv, OrderInv, ClearNewFlags, SendList, ObjectsOfPeers, SortedKeys, ClearNew, Updated, Enqueue, Told;
    hide Chosen;
    ToldList(ClearNew(net.peers[s]), ListOf(net.peers[s], AllObjects(net), true, all));
    ToldNothing(ClearNew(net.peers[t]));
  }

  lemma ToldList(p: Peer, q: Queued)
    ensures Updated(Enqueue(p, q)) == Told(p, Some(q))
  {
    hide Data;
  }

  /** What is chosen is new, nothing new is left out, and none comes twice. */
  lemma {:induction false} ChosenAre(objs: seq<Object>, o: Object)
    ensures multiset(Chosen(objs, false))[o] == if o.flags.isNew then multiset(objs)[o] else 0
    ensures Chosen(objs, true) == objs
  {
    if objs != [] {
      var init, last := objs[..|objs| - 1], objs[|objs| - 1];
      assert objs == init + [last];
      ChosenAre(init, o);
      assert multiset(objs) == multiset(init) + multiset{last};
    }
  }

  lemma {:induction false} NoneChosen(objs: seq<Object>)
    ensures Chosen(Aged(objs), false) == []
  {
    if objs != [] {
      var init := objs[..|objs| - 1];
      NoneChosen(init);
      assert Aged(objs)[..|objs| - 1] == Aged(init);
    }
  }

  lemma ListOfAged(p: Peer, objs: seq<Object>, first: bool, all: bool)
    ensures ListOf(p, Aged(objs), first, all) == ListOf(p, objs, false, all)
  {
    AgedTwice(objs);
    NoneChosen(objs);
    AgedCount(objs);
    hide Aged, Chosen;
  }

  lemma AgedCount(objs: seq<Object>)
    ensures |Aged(objs)| == |objs|
  {
  }

  predicate EachOnce(ss: seq<Socket>) {
    ss != [] ==> ss[0] !in ss[1..] && EachOnce(ss[1..])
  }

  lemma {:induction false} SortedEachOnce(ss: seq<Socket>)
    requires forall i, j | 0 <= i < j < |ss| :: ss[i] < ss[j]
    ensures EachOnce(ss)
  {
    if ss != [] {
      SortedEachOnce(ss[1..]);
    }
  }

  lemma TurnFirst(net: Net, ss: seq<Socket>, s: Socket, all: bool)
    requires Sound(net) && s in net.peers && (forall t | t in ss :: t in net.peers) && EachOnce(ss)
    requires ss != [] && net.peers[ss[0]].update
    ensures AfterTurns(SendList(net, ss[0], all), ss[1..], s, all) == AfterTurns(net, ss, s, all)
  {
    hide WaitInv, OrderInv, SendList, ObjectsOfPeers, SortedKeys, ClearNew, Aged, Told, ListOf;
    var t, rest := ss[0], ss[1..];
    var n, objs := SendList(net, t, all), AllObjects(net);
    var list := if s == t then Some(ListOf(net.peers[t], objs, true, all)) else None;
    assert ss == [t] + rest;
    SendListTells(net, t, s, all);
    ToldFields(net.peers[s], list);
    ListAges(net, t, all);
    ListOfAged(net.peers[s], objs, FirstSubscriber(n.peers, rest) == Some(s), all);
    ListOfPeer(n.peers[s], net.peers[s], AllObjects(n), FirstSubscriber(n.peers, rest) == Some(s), all);
    ClearedTwice(net.peers[s], list);
    ToldNothing(n.peers[s]);
    ToldNothing(ClearNew(net.peers[s]));
  }

  lemma ToldFields(p: Peer, list: Option<Queued>)
    ensures Told(ClearNew(p), list).update == p.update
    ensures list == None ==> Told(ClearNew(p), list).updated == p.updated
  {
  }

  lemma ListOfPeer(p: Peer, q: Peer, objs: seq<Object>, first: bool, all: bool)
    ensures p.updated == q.updated ==> ListOf(p, objs, first, all) == ListOf(q, objs, first, all)
  {
    hide Chosen;
  }

  lemma ToldNothing(p: Peer)
    ensures Told(p, None) == p
  {
  }

  lemma {:induction false} TurnsFlags(net: Net, ss: seq<Socket>, all: bool)
    requires Sound(net) && forall t | t in ss :: t in net.peers
    ensures var r := SendListToPeers(net, ss, all); r == net.(peers := r.peers)
    decreases |ss|
  {
    hide Sound, SendList, AllObjects, Told, ClearNew;
    if ss != [] {
      var t, rest := ss[0], ss[1..];
      if net.peers[t].update {
        SendListTells(net, t, t, all);
        TurnsFlags(SendList(net, t, all), rest, all);
      } else {
        TurnsFlags(net, rest, all);
      }
    }
  }

  lemma {:induction false} TurnsTaken(net: Net, ss: seq<Socket>, s: Socket, all: bool)
    requires Sound(net) && s in net.peers && (forall t | t in ss :: t in net.peers) && EachOnce(ss)
    ensures SendListToPeers(net, ss, all).peers[s] == AfterTurns(net, ss, s, all)
    decreases |ss|
  {
    hide Sound, SendList, AllObjects, ListOf, ClearNew;
    if ss != [] {
      var t, rest := ss[0], ss[1..];
      if net.peers[t].update {
        SendListTells(net, t, s, all);
        TurnsTaken(SendList(net, t, all), rest, s, all);
        hide AfterTurns;
        TurnFirst(net, ss, s, all);
      } else {
        TurnsTaken(net, rest, s, all);
      }
    }
  }

  /** Of the peers that want updates, the one that comes first. */
  ghost predicate First(net: Net, s: Socket) {
    s in net.peers && net.peers[s].update && forall t | t in net.peers && t < s :: !net.peers[t].update
  }

  lemma {:induction false} FirstIs(net: Net, ss: seq<Socket>, s: Socket)
    requires forall t | t in ss :: t in net.peers
    requires forall i, j | 0 <= i < j < |ss| :: ss[i] < ss[j]
    ensures FirstSubscriber(net.peers, ss) == Some(s) <==>
            s in ss && net.peers[s].update && forall t | t in ss && t < s :: !net.peers[t].update
    ensures FirstSubscriber(net.peers, ss).Some? <==> exists t :: t in ss && net.peers[t].update
  {
    if ss != [] {
      assert ss == [ss[0]] + ss[1..];
      FirstIs(net, ss[1..], s);
    }
  }

  lemma ListsGiven(net: Net, s: Socket, all: bool)
    requires Sound(net) && s in net.peers
    ensures var r, p := SendListToPeers(net, SortedKeys(net.peers.Keys), all), net.peers[s];
      && r == net.(peers := r.peers)
      && r.peers[s] == Told(if exists t :: t in net.peers && net.peers[t].update then ClearNew(p) else p,
                            if p.update then Some(ListOf(p, AllObjects(net), First(net, s), all)) else None)
  {
    hide WaitInv, OrdersInv, OrderInv, SendListToPeers, ObjectsOfPeers, SortedKeys, ListOf, ClearNew, Told;
    var ss := SortedKeys(net.peers.Keys);
    SortedEachOnce(ss);
    TurnsFlags(net, ss, all);
    TurnsTaken(net, ss, s, all);
    FirstIs(net, ss, s);
  }

  /** A flush that is due queues the whole list once to each peer that wants
      updates and nothing to any other, and then no object is new: the first list
      shows which objects were. */
  lemma FlushNotifies(net: Net, now: nat, s: Socket)
    requires Sound(net) && s in net.peers && net.flush && now > net.nextFlush
    ensures var r, p := FlushIfDue(net, now), net.peers[s];
      var list := if First(net, s) then AllObjects(net) else Aged(AllObjects(net));
      && r == net.(peers := r.peers, flush := false, nextFlush := now + 15_000_000_000)
      && r.peers[s] == Told(if exists t :: t in net.peers && net.peers[t].update then ClearNew(p) else p,
                            if p.update then Some(Listing(list)) else None)
  {
    hide WaitInv, OrdersInv, OrderInv, SendListToPeers, ObjectsOfPeers, SortedKeys, Aged, ClearNew, Told, Chosen;
    ListsGiven(StartFlush(net, now), s, true);
  }

  /** Lists of what is new tell it to the first subscriber alone: sending the
      first list takes the marks away. Who has had no list yet gets the whole one. */
  lemma NewsGoToFirst(net: Net, s: Socket)
    requires Sound(net) && s in net.peers
    ensures var p, objs := net.peers[s], AllObjects(net);
      SendListToPeers(net, SortedKeys(net.peers.Keys), false).peers[s].log ==
      if !p.update then p.log
      else if !p.updated then p.log + [Listing(if First(net, s) then objs else Aged(objs))]
      else p.log + [News(if First(net, s) then Chosen(objs, false) else [], |objs|)]
  {
    hide WaitInv, OrdersInv, OrderInv, SendListToPeers, ObjectsOfPeers, SortedKeys, Aged, Chosen, Data;
    ListsGiven(net, s, false);
  }
}
