/** A node connects upstream: what it sends first, what it gets back, and what
    each then knows of the other. */
module NetMeet {
  import opened Bytes
  import opened Wire
  import opened Messages
  import opened Options
  import opened NetState
  import opened NetSteps
  import opened NetFraming
  import opened NetSync
  import opened NetDuring
  import opened NetExact
  import NetInvariants

  /** The first bytes to an upstream node: LIST_OBJECTS and UPDATE_ME. */
  const ListObjectsBytes: Blob := [8, 0, 0, 0, 2, 0, 0, 0]
  const UpdateMeBytes: Blob := [8, 0, 0, 0, 1, 0, 0, 0]

  lemma PlainWords(b: Byte)
    ensures var d: Blob := [8, 0, 0, 0, b, 0, 0, 0];
      Words([8, b]) == d && Word(d, 0) == 8 && Word(d, 1) == b && Framed(d)
  {
    var d: Blob := [8, 0, 0, 0, b, 0, 0, 0];
    Put32Bytes(8);
    Put32Bytes(b);
    GetPut32(8);
    GetPut32(b);
    hide Put32;
    assert d[0..4] == Put32(8) && d[4..8] == Put32(b);
    TwoWords(8, b);
    hide Words;
  }

  lemma TwoWords(a: nat, b: nat)
    ensures Words([a, b]) == Put32(a) + Put32(b)
  {
    hide Put32;
    assert [a, b][1..] == [b] && [b][1..] == [];
    assert Words([b]) == Put32(b) + Words([]);
  }

  lemma FourWords(a: nat, b: nat, c: nat, d: nat)
    ensures Words([a, b, c, d]) == Words([a, b]) + Words([c, d])
  {
    hide Put32;
    assert [a, b, c, d][1..] == [b, c, d] && [b, c, d][1..] == [c, d];
    TwoWords(a, b);
    assert Words([a, b, c, d]) == Put32(a) + (Put32(b) + Words([c, d]));
    Assoc(Put32(a), Put32(b), Words([c, d]));
  }

  lemma HelloBytes()
    ensures Data(Hello) == ListObjectsBytes + UpdateMeBytes
  {
    PlainWords(2);
    PlainWords(1);
    hide Words, Word, Framed;
    FourWords(8, 2, 8, 1);
  }

  /** A connection that the node opens: to an upstream node it first sends the
      greeting, and a downstream one gets updates. */
  lemma DialIs(net: Net, s: Socket, upstream: bool)
    requires Sound(net) && s !in net.peers
    ensures var hello := ListObjectsBytes + UpdateMeBytes;
      Step(net, Dial(s, upstream)) == net.(peers := net.peers[s :=
        Peer(map[], [], [], if upstream then [hello] else [], 0, true, Mask(true, true, true), false, !upstream,
             false, 0, 0, if upstream then [Hello] else [], [], [])])
  {
    HelloBytes();
    assert [] + [Data(Hello)] == [Data(Hello)] && [] + [Hello] == [Hello];
    hide Sound, Data;
  }

  /** A connection that the node accepts. */
  lemma AcceptIs(net: Net, s: Socket)
    requires Sound(net) && s !in net.peers
    ensures Step(net, Accept(s)) ==
            net.(peers := net.peers[s :=
              Peer(map[], [], [], [], 0, true, Mask(true, false, true), false, false, false, 0, 0, [], [], [])])
  {
    assert OrderInv(AcceptedPeer);
    hide Sound;
  }

  /** The node after the first bytes of a connecting node. */
  ghost function Greeted(net: Net, s: Socket): Net
    requires Sound(net) && s in net.peers
  {
    var p, objs := net.peers[s], AllObjects(net);
    net.(peers := net.peers[s :=
      p.(update := true, log := p.log + [Listing(objs)], sendq := p.sendq + [ListBytes(objs)])])
  }

  lemma GreetedPeer(p: Peer, objs: seq<Object>)
    ensures p.(log := p.log + [Listing(objs)], sendq := p.sendq + [ListBytes(objs)]).(update := true)
         == p.(update := true, log := p.log + [Listing(objs)], sendq := p.sendq + [ListBytes(objs)])
  {
  }

  lemma HelloDispatched(net: Net, s: Socket, l: Blob, u: Blob, now: nat, later: nat)
    requires Sound(net) && s in net.peers && |l| == |u| == 8 && Word(l, 1) == 2 && Word(u, 1) == 1
    ensures Dispatch(net, s, l, now).peers[s].waiting == net.peers[s].waiting
    ensures Dispatch(Dispatch(net, s, l, now), s, u, later) == Greeted(net, s)
  {
    hide WaitInv, OrderInv, ObjectsOfPeers, SortedKeys, Dispatch, Word, UpdateBytes;
    ListsExactly(net, s, l, now);
    var n := Dispatch(net, s, l, now);
    SubscribesExactly(n, s, u, later);
    GreetedPeer(net.peers[s], AllObjects(net));
    UpdateAgain(net.peers, s, n.peers[s], n.peers[s].(update := true));
  }

  lemma UpdateAgain(peers: map<Socket, Peer>, s: Socket, p: Peer, q: Peer)
    ensures peers[s := p][s := q] == peers[s := q]
  {
  }

  lemma HelloProcessed(net: Net, s: Socket, l: Blob, u: Blob, clock: Clock)
    requires Sound(net) && s in net.peers && net.peers[s].waiting < MAX_PEER_WAITREQS
    requires |l| == |u| == 8 && Word(l, 1) == 2 && Word(u, 1) == 1 && Framed(l) && Framed(u)
    requires Decode(l) == ListObjects && Decode(u) == UpdateMe
    ensures var o := Process(net, s, l + u, clock, 0);
      o.Kept? && o.net == Greeted(net, s) && o.rest == []
  {
    hide Sound, Process, Dispatch, Decode, Word, Framed, Greeted;
    HelloDispatched(net, s, l, u, clock(0), clock(1));
    var n := Dispatch(net, s, l, clock(0));
    ProcessFrame(net, s, l, u, clock, 0);
    assert u + [] == u;
    ProcessFrame(n, s, u, [], clock, 1);
    ProcessNothing(Dispatch(n, s, u, clock(1)), s, clock, 2);
  }

  /** The first bytes of a connecting node make the other queue its whole list and
      remember that it wants updates, and do nothing else. */
  lemma Introduces(net: Net, s: Socket, clock: Clock)
    requires Sound(net) && s in net.peers && net.peers[s].incoming == [] && net.peers[s].waiting < MAX_PEER_WAITREQS
    ensures var p, objs := net.peers[s], AllObjects(net);
      Receive(net, s, ListObjectsBytes + UpdateMeBytes, false, clock, 0) ==
      net.(peers := net.peers[s :=
        p.(update := true, log := p.log + [Listing(objs)], sendq := p.sendq + [ListBytes(objs)])])
  {
    hide WaitInv, OrderInv, ObjectsOfPeers, SortedKeys, Process, UpdateBytes, Finish, Opened, Receive;
    hide ListObjectsBytes, UpdateMeBytes;
    OpenedSame(net, s);
    HelloFrames();
    HelloProcessed(net, s, ListObjectsBytes, UpdateMeBytes, clock);
    ReceiveIs(net, s, ListObjectsBytes + UpdateMeBytes, false, clock);
    FinishSame(Process(net, s, ListObjectsBytes + UpdateMeBytes, clock, 0), s);
  }

  lemma HelloFrames()
    ensures Framed(ListObjectsBytes) && |ListObjectsBytes| == 8 && Word(ListObjectsBytes, 1) == 2
    ensures Framed(UpdateMeBytes) && |UpdateMeBytes| == 8 && Word(UpdateMeBytes, 1) == 1
    ensures Decode(ListObjectsBytes) == ListObjects && Decode(UpdateMeBytes) == UpdateMe
  {
    PlainWords(2);
    PlainWords(1);
    hide Word, Framed;
  }

  lemma OpenedSame(net: Net, s: Socket)
    requires Sound(net) && s in net.peers && net.peers[s].incoming == []
    ensures Opened(net, s) == net
  {
    SoundOrder(net, s);
    hide Sound, OrderInv;
    assert TakeInput(net.peers[s]) == net.peers[s];
    assert net.peers[s := net.peers[s]] == net.peers;
  }

  lemma FinishSame(o: Outcome, s: Socket)
    requires o.Kept? && Sound(o.net) && s in o.net.peers && o.net.peers[s].incoming == [] == o.rest
    ensures Finish(o, s, false) == o.net
  {
    SoundOrder(o.net, s);
    hide Sound, OrderInv;
    var p := o.net.peers[s];
    assert PutBack(p, [], false) == p;
    assert o.net.peers[s := p] == o.net.peers;
  }

  lemma HoldsAlso(net: Net, r: Net, s: Socket, name: Blob)
    requires s !in net.peers && s in r.peers && r.peers == net.peers[s := r.peers[s]] && r.peers[s].objs == map[]
    ensures Holds(r, name) <==> Holds(net, name)
  {
    if Holds(net, name) {
      var t :| t in net.peers && name in net.peers[t].objs;
      assert t in r.peers && name in r.peers[t].objs;
    }
  }

  /** Every object is filed under the name under which it is advertised. */
  ghost predicate WellNamed(net: Net) {
    forall t, n | t in net.peers && n in net.peers[t].objs ::
      FullName(net.peers[t].objs[n]) == Join(DirOf(n), BaseOf(n)) && AfterSlash(n) != 1
  }

  lemma Greets(b: Net, u: Socket, clock: Clock)
    requires Sound(b) && u !in b.peers
    ensures var b1 := Step(b, Accept(u));
      var b2 := Receive(b1, u, ListObjectsBytes + UpdateMeBytes, false, clock, 0);
      u in b2.peers && b2.peers[u].update && Flatten(b2.peers[u].sendq) == Data(Listing(AllObjects(b1)))
  {
    hide WaitInv, OrderInv, ObjectsOfPeers, SortedKeys, Step, Receive, ListObjectsBytes, UpdateMeBytes, Flatten;
    hide UpdateBytes;
    var b1 := Step(b, Accept(u));
    AcceptIs(b, u);
    Introduces(b1, u, clock);
    var all := ListBytes(AllObjects(b1));
    NetInvariants.FlattenOne(all);
    assert [] + [all] == [all];
  }

  /** Node a connects to node b: b accepts, reads what a sends first and answers,
      and a reads the answer. Then b will tell a of changes, and a holds for b
      the names that b holds for others. */
  lemma Meets(a: Net, s: Socket, b: Net, u: Socket, name: Blob, ca: Clock, cb: Clock)
    requires Sound(a) && s !in a.peers && Sound(b) && u !in b.peers
    requires WellNamed(b) && Sendable(AllObjects(Step(b, Accept(u))))
    ensures var a1, b1 := Step(a, Dial(s, true)), Step(b, Accept(u));
      var b2 := Receive(b1, u, Flatten(a1.peers[s].sendq), false, cb, 0);
      && u in b2.peers && b2.peers[u].update
      && var a2 := Receive(a1, s, Flatten(b2.peers[u].sendq), false, ca, 0);
         s in a2.peers && (name in a2.peers[s].objs <==> Holds(b, name))
  {
    hide WaitInv, OrderInv, ObjectsOfPeers, SortedKeys, Step, Receive, ListObjectsBytes, UpdateMeBytes, Flatten;
    hide Data, Sendable, Holds;
    var a1, b1 := Step(a, Dial(s, true)), Step(b, Accept(u));
    DialIs(a, s, true);
    NetInvariants.FlattenOne(ListObjectsBytes + UpdateMeBytes);
    Greets(b, u, cb);
    AcceptIs(b, u);
    HoldsAlso(b, b1, u, name);
    NamedAlso(b, b1, u);
    hide AllObjects, WellNamed;
    AnswerRead(a1, s, b1, ca, name);
  }

  lemma NamedAlso(net: Net, r: Net, s: Socket)
    requires s !in net.peers && s in r.peers && r.peers == net.peers[s := r.peers[s]] && r.peers[s].objs == map[]
    requires WellNamed(net)
    ensures WellNamed(r)
  {
    hide FullName, Join, DirOf, BaseOf, AfterSlash;
  }

  lemma AnswerRead(net: Net, s: Socket, other: Net, clock: Clock, name: Blob)
    requires Sound(net) && s in net.peers && net.peers[s].incoming == [] && net.peers[s].waiting < MAX_PEER_WAITREQS
    requires Sound(other) && Sendable(AllObjects(other)) && WellNamed(other)
    ensures var r := Receive(net, s, Data(Listing(AllObjects(other))), false, clock, 0);
      s in r.peers && (name in r.peers[s].objs <==> Holds(other, name))
  {
    hide Receive, Data, AllObjects, WaitInv, OrderInv, Holds, FullName, Join, DirOf, BaseOf, AfterSlash, Sendable;
    TwoNodes(net, s, other, clock, name);
  }
}
