/** A request that the wait limit leaves in the input can be lost. */
module NetLimit {
  import opened Bytes
  import opened Wire
  import opened Messages
  import opened Options
  import opened NetState
  import opened NetSteps
  import opened NetFraming
  import opened NetSync
  import opened NetRelay
  import opened NetEffects
  import opened NetDuring
  import opened NetLoop
  import opened NetInvariants

  // ----- one read

  lemma ReadsOne(net: Net, k: Socket, d: Blob, clock: Clock)
    requires Sound(net) && k in net.peers && net.peers[k].incoming == []
    requires net.peers[k].waiting < MAX_PEER_WAITREQS && Framed(d) && |d| >= 8 && !Decode(d).Corrupt?
    ensures Opened(net, k) == Update(net, k, TakeInput(net.peers[k]))
    ensures Receive(net, k, d, false, clock, 0) ==
      Finish(Kept(Dispatch(Opened(net, k), k, d, clock(0)), [d], []), k, false)
  {
    hide Sound, Process, Dispatch, Decode, Framed, Opened, Finish, Receive, MAX_PEER_WAITREQS;
    OpenedIs(net, k);
    ReceiveIs(net, k, d, false, clock);
    var n := Opened(net, k);
    assert d + [] == d && [d] + [] == [d];
    ProcessFrame(n, k, d, [], clock, 0);
    ProcessNothing(Dispatch(n, k, d, clock(0)), k, clock, 1);
  }

  // ----- requests up to the limit

  /** Peer k holds the object but not its data, and s has asked for it n times,
      which is all that is waited for. */
  ghost predicate Asking(net: Net, s: Socket, k: Socket, name: Blob, n: nat) {
    && Sound(net) && s in net.peers && k in net.peers && s != k && 36 + |name| < MESSAGE_SIZE_LIMIT
    && FindOwner(net.peers, name) == Some(k) && Lacking(net.peers[k].objs[name])
    && |net.waiting| == n && forall w | w in net.waiting :: w.name == name && w.peer == s
  }

  lemma {:induction false} AllOfOne(ws: seq<Wait>, s: Socket)
    requires forall w | w in ws :: w.peer == s
    ensures |WaitNames(ws, s)| == |ws|
  {
    if ws != [] {
      AllOfOne(ws[..|ws| - 1], s);
    }
  }

  lemma AskingCount(net: Net, s: Socket, k: Socket, name: Blob, n: nat)
    requires Asking(net, s, k, name, n)
    ensures net.peers[s].waiting == n
  {
    AllOfOne(net.waiting, s);
    CountIs(net, s);
    hide Sound, FindOwner, Lacking, WaitNames;
  }

  /** One more request. */
  lemma AsksAgain(net: Net, s: Socket, k: Socket, name: Blob, n: nat, now: nat)
    requires Asking(net, s, k, name, n)
    ensures |EncodeGet(name)| >= 8 && Framed(EncodeGet(name)) && Decode(EncodeGet(name)) == GetObject(name)
    ensures Asking(Dispatch(net, s, EncodeGet(name), now), s, k, name, n + 1)
  {
    hide Sound, Dispatch, EncodeGet, Decode, FirstOwner, SortedKeys, Lacking;
    DecodeEncodeGet(name);
    FramedLong(EncodeGet(name));
    var r := Dispatch(net, s, EncodeGet(name), now);
    DispatchEffect(net, s, EncodeGet(name), now);
    SameNames(net, r, s, name, now);
    hide HasEffect;
    SameOwner(net.peers, r.peers, SortedKeys(net.peers.Keys), name);
    LackingStill(net.peers[k].objs[name], now);
  }

  lemma SameNames(net: Net, r: Net, s: Socket, name: Blob, now: nat)
    requires s in net.peers && HasEffect(net, r, s, GetObject(name), now)
    ensures forall t | t in net.peers :: t in r.peers && net.peers[t].objs.Keys == r.peers[t].objs.Keys
    ensures FindOwner(net.peers, name).Some? ==>
      var k := FindOwner(net.peers, name).value;
      && r.peers[k].objs == net.peers[k].objs[name := net.peers[k].objs[name].(lastreq := now)]
      && (Lacking(net.peers[k].objs[name]) ==> r.waiting == net.waiting + [Wait(now, name, [], s)])
  {
    hide FindOwner, Lacking;
  }

  lemma LackingStill(o: Object, now: nat)
    ensures Lacking(o.(lastreq := now)) == Lacking(o)
  {
  }

  function Requests(name: Blob, n: nat): Blob {
    if n == 0 then [] else EncodeGet(name) + Requests(name, n - 1)
  }

  /** The loop stops after as many requests as may wait, and keeps the others. */
  lemma {:induction false} StopsAtLimit(net: Net, s: Socket, k: Socket, name: Blob, n: nat, more: nat, clock: Clock,
                                        turn: nat)
    requires Asking(net, s, k, name, n) && n <= MAX_PEER_WAITREQS
    ensures var o := Process(net, s, Requests(name, MAX_PEER_WAITREQS - n + more), clock, turn);
      && o.Kept? && o.rest == Requests(name, more) && Asking(o.net, s, k, name, MAX_PEER_WAITREQS)
    decreases MAX_PEER_WAITREQS - n
  {
    hide Asking, Process, Dispatch, EncodeGet, Decode, Framed, Requests;
    AskingCount(net, s, k, name, n);
    AskingSound(net, s, k, name, n);
    var buf := Requests(name, MAX_PEER_WAITREQS - n + more);
    if n == MAX_PEER_WAITREQS {
      ProcessStops(net, s, buf, clock, turn);
    } else {
      var rest := Requests(name, MAX_PEER_WAITREQS - (n + 1) + more);
      RequestsFirst(name, MAX_PEER_WAITREQS - n + more);
      AsksAgain(net, s, k, name, n, clock(turn));
      ProcessFrame(net, s, EncodeGet(name), rest, clock, turn);
      StopsAtLimit(Dispatch(net, s, EncodeGet(name), clock(turn)), s, k, name, n + 1, more, clock, turn + 1);
    }
  }

  lemma AskingSound(net: Net, s: Socket, k: Socket, name: Blob, n: nat)
    requires Asking(net, s, k, name, n)
    ensures Sound(net) && s in net.peers && k in net.peers && s != k
  {
  }

  lemma RequestsFirst(name: Blob, n: nat)
    requires n > 0
    ensures Requests(name, n) == EncodeGet(name) + Requests(name, n - 1)
  {
  }

  // ----- a run that loses a request

  /** Peer k alone holds the object, without its data, and nobody waits. */
  ghost predicate Advertised(net: Net, k: Socket, name: Blob) {
    && Sound(net) && net.waiting == [] && k in net.peers && name in net.peers[k].objs
    && Lacking(net.peers[k].objs[name]) && forall t | t in net.peers && t != k :: name !in net.peers[t].objs
  }

  lemma Advertises(net: Net, k: Socket, name: Blob, now: nat)
    requires Sound(net) && net.waiting == [] && k in net.peers && 36 + |name| < MESSAGE_SIZE_LIMIT
    requires forall t | t in net.peers :: net.peers[t].objs == map[]
    ensures |Summary(name)| >= 8 && Advertised(Dispatch(net, k, Summary(name), now), k, name)
  {
    hide Sound, Dispatch, Summary, Decode;
    SummaryDecoded(name);
    DispatchEffect(net, k, Summary(name), now);
  }

  lemma AdvertisedRead(net: Net, k: Socket, name: Blob, clock: Clock)
    requires Sound(net) && net.waiting == [] && k in net.peers && 36 + |name| < MESSAGE_SIZE_LIMIT
    requires net.peers[k].incoming == [] && forall t | t in net.peers :: net.peers[t].objs == map[]
    ensures var r := Receive(net, k, Summary(name), false, clock, 0);
      r.peers.Keys == net.peers.Keys && Advertised(r, k, name) && r.peers[k].incoming == []
      && r.peers[k].connected == net.peers[k].connected
  {
    hide Sound, Dispatch, Summary, Decode, Framed, Advertised, Opened, Finish, Receive;
    CountIs(net, k);
    assert WaitNames([], k) == [];
    SummaryDecoded(name);
    ReadsOne(net, k, Summary(name), clock);
    var n := Opened(net, k);
    Advertises(n, k, name, clock(0));
    FinishAdvertised(Dispatch(n, k, Summary(name), clock(0)), k, name, [Summary(name)]);
    ReceiveMask(net, k, Summary(name), clock, 0);
  }

  lemma FinishAdvertised(net: Net, k: Socket, name: Blob, frames: seq<Blob>)
    requires Advertised(net, k, name)
    ensures var r := Finish(Kept(net, frames, []), k, false);
      Advertised(r, k, name) && r.peers.Keys == net.peers.Keys && r.peers[k].incoming == []
  {
    SoundOrder(net, k);
    hide Sound, Indexes, Lacking;
  }

  lemma AcceptsNext(net: Net, k: Socket, name: Blob, s: Socket)
    requires Advertised(net, k, name) && s !in net.peers && 36 + |name| < MESSAGE_SIZE_LIMIT
    ensures OrderInv(AcceptedPeer) && Asking(AddPeer(net, s, AcceptedPeer), s, k, name, 0)
    ensures AddPeer(net, s, AcceptedPeer).peers == net.peers[s := AcceptedPeer]
  {
    hide Sound, Lacking, FindOwner;
    var r := AddPeer(net, s, AcceptedPeer);
    assert r == Update(net, s, AcceptedPeer);
    hide AddPeer;
    assert r.peers[k] == net.peers[k] && AcceptedPeer.objs == map[];
    OnlyOwner(r.peers, k, name);
  }

  lemma OnlyOwner(peers: map<Socket, Peer>, k: Socket, name: Blob)
    requires k in peers && name in peers[k].objs
    requires forall t | t in peers && t != k :: name !in peers[t].objs
    ensures FindOwner(peers, name) == Some(k)
  {
    hide FindOwner;
  }

  /** The requester after it has closed its end. */
  ghost predicate Left(p: Peer, q: Peer, name: Blob) {
    q.incoming == EncodeGet(name) && q.connected == p.connected && q.mask == p.mask.(read := false)
  }

  ghost predicate AllFor(ws: seq<Wait>, name: Blob) {
    forall w | w in ws :: w.name == name
  }

  lemma StopsOneShort(net: Net, s: Socket, k: Socket, name: Blob, clock: Clock)
    requires Asking(net, s, k, name, 0)
    ensures var o := Process(net, s, Requests(name, MAX_PEER_WAITREQS + 1), clock, 0);
      && o.Kept? && o.rest == EncodeGet(name) && Asking(o.net, s, k, name, MAX_PEER_WAITREQS)
      && SameInput(net, o.net)
  {
    AskingSound(net, s, k, name, 0);
    hide Asking, Sound, Process, EncodeGet, Requests, SameInput;
    StopsAtLimit(net, s, k, name, 0, 1, clock, 0);
    RequestsOne(name);
    ProcessInput(net, s, Requests(name, MAX_PEER_WAITREQS + 1), clock, 0);
  }

  /** As many requests as may wait and one more, after which the requester
      closes its end. */
  lemma LeavesOne(net: Net, s: Socket, k: Socket, name: Blob, clock: Clock)
    requires Asking(net, s, k, name, 0) && net.peers[s].incoming == []
    ensures var r := Receive(net, s, Requests(name, MAX_PEER_WAITREQS + 1), true, clock, 0);
      s in r.peers && Left(net.peers[s], r.peers[s], name) && AllFor(r.waiting, name) && Aside(net, r, k)
  {
    AskingSound(net, s, k, name, 0);
    OpenedAsking(net, s, k, name);
    hide Asking, Sound, Receive, Process, EncodeGet, Opened, Finish, Requests, Aside, AllFor, SameInput, Left;
    hide PutBack, TakeInput, MAX_PEER_WAITREQS;
    var n, buf := Opened(net, s), Requests(name, MAX_PEER_WAITREQS + 1);
    ReceiveIs(net, s, buf, true, clock);
    StopsOneShort(n, s, k, name, clock);
    var o := Process(n, s, buf, clock, 0);
    FinishLeft(o, s, k, name);
    LeftSo(net.peers[s], n, o.net, s, name);
    ReceiveAside(net, s, buf, true, clock, k);
  }

  lemma LeftSo(p: Peer, n: Net, m: Net, s: Socket, name: Blob)
    requires s in n.peers && n.peers[s] == TakeInput(p) && SameInput(n, m)
    ensures s in m.peers && Left(p, PutBack(m.peers[s], EncodeGet(name), true), name)
  {
    hide EncodeGet;
  }

  lemma OpenedAsking(net: Net, s: Socket, k: Socket, name: Blob)
    requires Asking(net, s, k, name, 0)
    ensures var n := Opened(net, s);
      && Asking(n, s, k, name, 0) && n.peers.Keys == net.peers.Keys && n.peers[s] == TakeInput(net.peers[s])
  {
    hide Sound, Opened, Lacking, FindOwner;
    OpenedIs(net, s);
    OwnerKept(net, s, TakeInput(net.peers[s]), name);
  }

  lemma OwnerKept(net: Net, s: Socket, p: Peer, name: Blob)
    requires s in net.peers && p.objs == net.peers[s].objs
    ensures FindOwner(Update(net, s, p).peers, name) == FindOwner(net.peers, name)
  {
    hide FirstOwner, SortedKeys;
    var n := Update(net, s, p);
    assert n.peers.Keys == net.peers.Keys;
    assert forall t | t in net.peers :: n.peers[t].objs == net.peers[t].objs;
    SameOwner(net.peers, n.peers, SortedKeys(net.peers.Keys), name);
  }

  lemma FinishLeft(o: Outcome, s: Socket, k: Socket, name: Blob)
    requires o.Kept? && Asking(o.net, s, k, name, MAX_PEER_WAITREQS)
    ensures var r := Finish(o, s, true);
      s in r.peers && r.peers[s] == PutBack(o.net.peers[s], o.rest, true) && AllFor(r.waiting, name)
  {
    SoundOrder(o.net, s);
    hide Sound, Indexes, Lacking, FindOwner;
  }

  lemma RequestsOne(name: Blob)
    ensures Requests(name, 1) == EncodeGet(name)
  {
    hide EncodeGet;
    assert EncodeGet(name) + [] == EncodeGet(name);
  }

  lemma {:induction false} NoOthers(ws: seq<Wait>, name: Blob)
    requires AllFor(ws, name)
    ensures Others(ws, name) == []
  {
    if ws != [] {
      NoOthers(ws[1..], name);
    }
  }

  /** The news that there is no such object ends all waits. */
  lemma NoneEndsAll(net: Net, k: Socket, name: Blob, clock: Clock, s: Socket)
    requires Sound(net) && k in net.peers && s in net.peers && s != k && 12 + |name| < MESSAGE_SIZE_LIMIT
    requires net.peers[k].incoming == [] && net.peers[k].waiting < MAX_PEER_WAITREQS && AllFor(net.waiting, name)
    ensures var r := Receive(net, k, EncodeNone(name), false, clock, 0);
      Aside(net, r, s) && s in r.peers && r.peers[s].waiting == 0
  {
    hide Sound, Process, Dispatch, Decode, EncodeNone, Framed, Aside, Opened, Finish, MAX_PEER_WAITREQS, Receive;
    OpenedIs(net, k);
    var n := Opened(net, k);
    DecodeEncodeNone(name);
    FramedLong(EncodeNone(name));
    ReadsOne(net, k, EncodeNone(name), clock);
    var m := Dispatch(n, k, EncodeNone(name), clock(0));
    DispatchEffect(n, k, EncodeNone(name), clock(0));
    NoOthers(net.waiting, name);
    assert m.waiting == [];
    hide HasEffect;
    FinishWaits(m, k, [EncodeNone(name)], s);
    ReceiveAside(net, k, EncodeNone(name), false, clock, s);
  }

  lemma FinishWaits(net: Net, k: Socket, frames: seq<Blob>, s: Socket)
    requires Sound(net) && k in net.peers && s in net.peers && s != k && net.waiting == []
    ensures var r := Finish(Kept(net, frames, []), k, false); s in r.peers && r.peers[s].waiting == 0
  {
    SoundOrder(net, k);
    CountIs(net, s);
    assert WaitNames([], s) == [];
    hide Sound, Indexes;
  }

  /** Some writes send everything that is queued. */
  lemma {:induction false} WritesAll(p: Peer) returns (accepts: seq<nat>)
    requires p.sendq != [] ==> p.sendpos <= |p.sendq[0]|
    ensures Write(p, accepts).sendq == []
    decreases |p.sendq|
  {
    if p.sendq == [] {
      accepts := [];
    } else {
      var len := |p.sendq[0]| - p.sendpos;
      var rest := WritesAll(Sent(p, len));
      if len == 0 {
        accepts := rest;
      } else {
        accepts := [len] + rest;
        assert accepts[1..] == rest;
      }
    }
  }

  lemma LoopCloses(net: Net, s: Socket)
    requires Sound(net) && s in net.peers && Closes(net.peers[s])
    ensures s !in Tick(net, 0, 0).peers
  {
    hide Sound, Tick, InTime, LosesObjects;
    LoopFlags(net, 0, 0);
  }

  // ----- the whole run

  lemma RunMore(es: seq<Event>, e: Event)
    ensures Run(es + [e]) == if Enabled(Run(es), e) then Step(Run(es), e) else Run(es)
  {
    hide Step, InitialNet;
    assert (es + [e])[..|es|] == es;
  }

  /** Peer 1 advertises a histogram; peer 2 connects, asks for it once more
      than may wait and closes its end. */
  function Asks129(name: Blob, clock: Clock): seq<Event> {
    [Accept(1), Readable(1, Summary(name), false, clock), Accept(2),
     Readable(2, Requests(name, MAX_PEER_WAITREQS + 1), true, clock)]
  }

  lemma RunAdvertises(name: Blob, clock: Clock)
    requires 36 + |name| < MESSAGE_SIZE_LIMIT
    ensures var r := Run([Accept(1), Readable(1, Summary(name), false, clock)]);
      && r.peers.Keys == {LOCAL, 1} && Advertised(r, 1, name)
      && r.peers[1].incoming == [] && r.peers[1].connected
  {
    hide Summary, Advertised, Receive, WaitInv;
    var read := Readable(1, Summary(name), false, clock);
    assert [] + [Accept(1)] == [Accept(1)] && [Accept(1)] + [read] == [Accept(1), read];
    RunMore([], Accept(1));
    RunMore([Accept(1)], read);
    assert Run([]) == InitialNet;
    var n := AddPeer(InitialNet, 1, AcceptedPeer);
    assert n.peers == map[LOCAL := NewPeer, 1 := AcceptedPeer] && n.waiting == [];
    AdvertisedRead(n, 1, name, clock);
  }

  lemma RunAsks(name: Blob, clock: Clock)
    requires 36 + |name| < MESSAGE_SIZE_LIMIT
    ensures var r := Run(Asks129(name, clock));
      && 1 in r.peers && 2 in r.peers && Left(AcceptedPeer, r.peers[2], name) && AllFor(r.waiting, name)
      && r.peers[1].incoming == [] && r.peers[1].connected && r.peers[1].waiting < MAX_PEER_WAITREQS
  {
    hide Summary, Requests, Run, Advertised, Asking, Receive, Sound, Left, AllFor, AddPeer, EncodeGet;
    var es := [Accept(1), Readable(1, Summary(name), false, clock)];
    var ask := Readable(2, Requests(name, MAX_PEER_WAITREQS + 1), true, clock);
    assert Asks129(name, clock) == es + [Accept(2)] + [ask];
    RunAdvertises(name, clock);
    RunMore(es, Accept(2));
    RunMore(es + [Accept(2)], ask);
    var n := Run(es);
    AcceptsNext(n, 1, name, 2);
    var m := AddPeer(n, 2, AcceptedPeer);
    assert m == Run(es + [Accept(2)]);
    LeavesOne(m, 2, 1, name, clock);
    NobodyWaits(n, 1, name);
  }

  lemma NobodyWaits(net: Net, k: Socket, name: Blob)
    requires Advertised(net, k, name)
    ensures net.peers[k].waiting == 0
  {
    CountIs(net, k);
    assert WaitNames([], k) == [];
  }

  /** All waits are answered, and the answers are sent. */
  function Answers129(name: Blob, clock: Clock, accepts: seq<nat>): seq<Event> {
    [Readable(1, EncodeNone(name), false, clock), Writable(2, accepts)]
  }

  lemma WriteLeaves(net: Net, s: Socket) returns (accepts: seq<nat>)
    requires Inv(net) && s in net.peers
    ensures var r := WriteTo(net, s, accepts);
      && s in r.peers && r.peers[s].sendq == [] && r.peers[s].incoming == net.peers[s].incoming
      && r.peers[s].connected == net.peers[s].connected && r.peers[s].mask == net.peers[s].mask
      && r.peers[s].waiting == net.peers[s].waiting
  {
    assert PeerInv(net.peers[s]);
    accepts := WritesAll(net.peers[s]);
    WriteKeeps(net.peers[s], accepts);
    SoundOrder(net, s);
    hide Inv, Sound, Indexes, Write, PeerInv;
  }

  lemma ClosesNow(p: Peer, q: Peer, name: Blob)
    requires Left(AcceptedPeer, p, name)
    requires q.sendq == [] && q.waiting == 0 && q.connected == p.connected && q.mask == p.mask.(write := q.mask.write)
    ensures Closes(q)
  {
  }

  lemma RequestReady(name: Blob)
    requires 12 + |name| < MESSAGE_SIZE_LIMIT
    ensures Ready(EncodeGet(name))
  {
    hide EncodeGet, Decode;
    DecodeEncodeGet(name);
    assert EncodeGet(name)[..|EncodeGet(name)|] == EncodeGet(name);
  }

  /** After all but one of the requests have been answered, the next turn of the
      main loop gives up the peer, although the last one is complete in its
      input. */
  lemma RequestLost(name: Blob, clock: Clock) returns (accepts: seq<nat>)
    requires 36 + |name| < MESSAGE_SIZE_LIMIT
    ensures var es := Asks129(name, clock) + Answers129(name, clock, accepts);
      && 2 in Run(es).peers && Run(es).peers[2].incoming == EncodeGet(name) && Ready(EncodeGet(name))
      && 2 !in Run(es + [Loop(0, 0)]).peers
  {
    hide Run, Asks129, AllFor, EncodeNone, EncodeGet, Receive, WriteTo, Tick, Closes, Inv, Sound, Ready, MarkedOnly;
    var es, none := Asks129(name, clock), Readable(1, EncodeNone(name), false, clock);
    RequestReady(name);
    RunAsks(name, clock);
    RunMore(es, none);
    NoneEndsAll(Run(es), 1, name, clock, 2);
    Reachable(es + [none]);
    accepts := WriteLeaves(Run(es + [none]), 2);
    var write := Writable(2, accepts);
    RunMore(es + [none], write);
    assert es + Answers129(name, clock, accepts) == es + [none] + [write];
    ClosesNow(Run(es).peers[2], Run(es + [none] + [write]).peers[2], name);
    RunMore(es + [none] + [write], Loop(0, 0));
    LoopCloses(Run(es + [none] + [write]), 2);
  }
}
