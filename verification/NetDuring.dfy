/** A full list that comes in by pieces, while other peers send and the main
    loop goes on. */
module NetDuring {
  import opened Bytes
  import opened Wire
  import opened Messages
  import opened Options
  import opened NetState
  import opened NetSteps
  import opened NetFraming
  import opened NetSync
  import opened NetRelay
  import opened NetFlush
  import opened NetEffects

  // ----- what happens to a peer on the side

  /** The same object but for the request time and the mark of what is new. */
  predicate SameButMarks(o: Object, p: Object) {
    p == o.(lastreq := p.lastreq, flags := o.flags.(isNew := p.flags.isNew))
  }

  ghost predicate MarkedOnly(x: map<Blob, Object>, y: map<Blob, Object>) {
    x.Keys == y.Keys && forall n | n in x :: SameButMarks(x[n], y[n])
  }

  /** The input of a peer is untouched, its objects are but for marks, and it
      waits for no more. */
  ghost predicate PeerAside(p: Peer, q: Peer) {
    && q.incoming == p.incoming && q.connected == p.connected && q.mask == p.mask.(write := q.mask.write)
    && q.waiting <= p.waiting && MarkedOnly(p.objs, q.objs)
  }

  ghost predicate Aside(net: Net, r: Net, s: Socket) {
    s in net.peers && s in r.peers && PeerAside(net.peers[s], r.peers[s])
  }

  lemma AsideChain(a: Net, b: Net, c: Net, s: Socket)
    requires Aside(a, b, s) && Aside(b, c, s)
    ensures Aside(a, c, s)
  {
  }

  lemma AsideSame(net: Net, r: Net, s: Socket)
    requires s in net.peers && s in r.peers && r.peers[s] == net.peers[s]
    ensures Aside(net, r, s)
  {
  }

  lemma {:induction false} OthersFewer(ws: seq<Wait>, name: Blob, s: Socket)
    ensures |WaitNames(Others(ws, name), s)| <= |WaitNames(ws, s)|
  {
    if ws != [] {
      OthersFewer(ws[1..], name, s);
      assert ws == [ws[0]] + ws[1..];
      WaitNamesConcat([ws[0]], ws[1..], s);
      WaitNamesConcat([ws[0]], Others(ws[1..], name), s);
      assert [] + Others(ws[1..], name) == Others(ws[1..], name);
    }
  }

  lemma CountIs(net: Net, s: Socket)
    requires Sound(net) && s in net.peers
    ensures net.peers[s].waiting == |WaitNames(net.waiting, s)|
  {
  }

  lemma AddedElsewhere(ws: seq<Wait>, w: Wait, s: Socket)
    requires w.peer != s
    ensures WaitNames(ws + [w], s) == WaitNames(ws, s)
  {
    assert (ws + [w])[..|ws|] == ws;
  }

  lemma WaitsFewer(net: Net, t: Socket, m: Message, now: nat, s: Socket)
    requires t != s
    ensures |WaitNames(WaitsAfter(net, t, m, now), s)| <= |WaitNames(net.waiting, s)|
  {
    hide FindOwner, Lacking, WaitNames, Others;
    match m
    case GetObject(name) => AddedElsewhere(net.waiting, Wait(now, name, [], t), s);
    case ObjectReply(_, _, _, name, _, _) => OthersFewer(net.waiting, name, s);
    case NoneReply(name) => OthersFewer(net.waiting, name, s);
    case _ =>
  }

  lemma CacheAside(net: Net, t: Socket, m: Message, now: nat, s: Socket)
    requires t in net.peers && s in net.peers && t != s
    ensures MarkedOnly(net.peers[s].objs, CacheAfter(net, t, m, now, s))
  {
    hide FindOwner;
  }

  /** A message from another peer. */
  lemma DispatchAside(net: Net, t: Socket, d: Blob, now: nat, s: Socket)
    requires Sound(net) && t in net.peers && s in net.peers && t != s && |d| >= 8
    ensures Aside(net, Dispatch(net, t, d, now), s)
  {
    hide Sound, Dispatch, Decode, WaitsAfter, CacheAfter, WaitNames, MarkedOnly;
    DispatchEffect(net, t, d, now);
    DispatchInput(net, t, d, now);
    CacheAside(net, t, Decode(d), now, s);
    WaitsFewer(net, t, Decode(d), now, s);
    CountIs(net, s);
    CountIs(Dispatch(net, t, d, now), s);
  }

  lemma LoseAside(net: Net, t: Socket, s: Socket)
    requires t in net.peers && s in net.peers && t != s
    ensures Aside(net, LosePeer(net, t), s)
  {
    hide DropWaits, WaitInv;
    AsideSame(net, LosePeer(net, t), s);
  }

  lemma {:induction false} ProcessAside(net: Net, t: Socket, buf: Blob, clock: Clock, turn: nat, s: Socket)
    requires Sound(net) && t in net.peers && s in net.peers && t != s
    ensures Aside(net, Process(net, t, buf, clock, turn).net, s)
    decreases |buf|
  {
    hide Sound, Process, Dispatch, Decode, Word, LosePeer, Aside, Waits, Framed;
    if Dispatches(net.peers[t], buf) {
      var frame, tail := buf[..Word(buf, 0)], buf[Word(buf, 0)..];
      ProcessHead(net, t, buf, clock, turn);
      var n := Dispatch(net, t, frame, clock(turn));
      DispatchAside(net, t, frame, clock(turn), s);
      ProcessAside(n, t, tail, clock, turn + 1, s);
      AsideChain(net, n, Process(n, t, tail, clock, turn + 1).net, s);
    } else {
      ProcessStops(net, t, buf, clock, turn);
      AsideSame(net, net, s);
      LoseAside(net, t, s);
    }
  }

  lemma SetAside(net: Net, t: Socket, p: Peer, s: Socket)
    requires Sound(net) && t in net.peers && OrderInv(p) && p.waiting == net.peers[t].waiting
    requires s in net.peers && (t == s ==> PeerAside(net.peers[s], p))
    ensures Aside(net, SetPeer(net, t, p), s)
  {
    hide Sound, OrderInv;
    if t != s {
      AsideSame(net, SetPeer(net, t, p), s);
    }
  }

  /** Another peer's input. */
  lemma ReceiveAside(net: Net, t: Socket, bytes: Blob, closed: bool, clock: Clock, s: Socket)
    requires Sound(net) && t in net.peers && s in net.peers && t != s
    ensures Aside(net, Receive(net, t, bytes, closed, clock, 0), s)
  {
    hide Sound, Process, Aside, Indexes, SetPeer;
    SoundOrder(net, t);
    SetAside(net, t, TakeInput(net.peers[t]), s);
    var n, buf := Opened(net, t), net.peers[t].incoming + bytes;
    assert Aside(net, n, s);
    KeptAside(net, n, s);
    ProcessAside(n, t, buf, clock, 0, s);
    var o := Process(n, t, buf, clock, 0);
    AsideChain(net, n, o.net, s);
    if o.Kept? {
      SoundOrder(o.net, t);
      KeptAside(n, o.net, s);
      var r := SetPeer(o.net, t, PutBack(o.net.peers[t], o.rest, closed));
      SetAside(o.net, t, PutBack(o.net.peers[t], o.rest, closed), s);
      AsideChain(net, o.net, r, s);
    }
  }

  lemma KeptAside(net: Net, r: Net, s: Socket)
    requires Aside(net, r, s)
    ensures s in net.peers && s in r.peers
  {
  }

  lemma WriteAside(net: Net, t: Socket, accepts: seq<nat>, s: Socket)
    requires Sound(net) && t in net.peers && s in net.peers
    ensures Aside(net, WriteTo(net, t, accepts), s)
  {
    WriteKeeps(net.peers[t], accepts);
    SoundOrder(net, t);
    var p := Write(net.peers[t], accepts);
    hide Sound, Indexes, Write;
    SetAside(net, t, p, s);
  }

  // ----- the main loop

  lemma ClearedAside(net: Net, s: Socket)
    requires Sound(net) && s in net.peers
    ensures Aside(net, ClearNewFlags(net), s)
  {
    ClearedIs(net);
    hide Sound, ClearNewFlags;
  }

  lemma SendListAside(net: Net, t: Socket, s: Socket, all: bool)
    requires Sound(net) && t in net.peers && s in net.peers
    ensures Aside(net, SendList(net, t, all), s)
  {
    SendListIs(net, t, all);
    ClearedAside(net, s);
    hide Sound, ClearNewFlags, SendList, AllObjects, ListFor, Data, MarkedOnly;
    var c := ClearNewFlags(net);
    MarkedSame(c.peers[s].objs);
    AsideChain(net, c, SendList(net, t, all), s);
  }

  lemma MarkedSame(objs: map<Blob, Object>)
    ensures MarkedOnly(objs, objs)
  {
  }

  lemma {:induction false} SendListsAside(net: Net, ss: seq<Socket>, s: Socket, all: bool)
    requires Sound(net) && s in net.peers && forall t | t in ss :: t in net.peers
    ensures Aside(net, SendListToPeers(net, ss, all), s)
    decreases |ss|
  {
    hide Sound, SendList, Aside;
    if ss == [] {
      AsideSame(net, net, s);
    } else {
      var n := if net.peers[ss[0]].update then SendList(net, ss[0], all) else net;
      SendListAside(net, ss[0], s, all);
      AsideSame(net, net, s);
      SendListsAside(n, ss[1..], s, all);
      AsideChain(net, n, SendListToPeers(n, ss[1..], all), s);
    }
  }

  lemma FlushAside(net: Net, now: nat, s: Socket)
    requires Sound(net) && s in net.peers
    ensures Aside(net, FlushIfDue(net, now), s)
  {
    hide Sound, SendListToPeers, SortedKeys, Aside;
    AsideSame(net, net, s);
    if net.flush && now > net.nextFlush {
      var n := StartFlush(net, now);
      AsideSame(net, n, s);
      SendListsAside(n, SortedKeys(net.peers.Keys), s, true);
      AsideChain(net, n, SendListToPeers(n, SortedKeys(net.peers.Keys), true), s);
    }
  }

  /** A peer that is read from is not given up. */
  lemma MaskAside(net: Net, t: Socket, s: Socket)
    requires Sound(net) && t in net.peers && s in net.peers && net.peers[s].mask.read
    ensures Aside(net, UpdateMask(net, t), s)
  {
    SoundOrder(net, t);
    var p := WithMask(net.peers[t]);
    MarkedSame(net.peers[s].objs);
    hide Sound, Indexes, LosePeer, MarkedOnly;
    AsideSame(net, net, s);
    SetAside(net, t, p, s);
    var n := SetPeer(net, t, p);
    if Closes(net.peers[t]) {
      assert t != s;
      LoseAside(n, t, s);
      AsideChain(net, n, LosePeer(n, t), s);
    }
  }

  lemma StillRead(net: Net, r: Net, s: Socket)
    requires Aside(net, r, s) && net.peers[s].mask.read
    ensures s in r.peers && r.peers[s].mask.read
  {
  }

  lemma {:induction false} MasksAside(net: Net, ss: seq<Socket>, s: Socket)
    requires Sound(net) && s in net.peers && net.peers[s].mask.read
    requires forall t | t in ss :: t in net.peers
    requires forall i, j | 0 <= i < j < |ss| :: ss[i] < ss[j]
    ensures Aside(net, UpdateMasks(net, ss), s)
    decreases |ss|
  {
    hide Sound, UpdateMask, Aside;
    if ss == [] {
      AsideSame(net, net, s);
    } else {
      var n := UpdateMask(net, ss[0]);
      MaskAside(net, ss[0], s);
      StillRead(net, n, s);
      MasksAside(n, ss[1..], s);
      AsideChain(net, n, UpdateMasks(n, ss[1..]), s);
    }
  }

  lemma OverdueAside(net: Net, now: nat, waitStale: nat, s: Socket)
    requires Sound(net) && s in net.peers
    ensures Aside(net, ReleaseOverdue(net, now, waitStale), s)
  {
    hide WaitInv, OrdersInv, Sweep, TimeoutVerdict;
    var r := ReleaseOverdue(net, now, waitStale);
    SweepWaitsLess(net, 0, TimeoutVerdict(net, now - WAIT_MAX, now - waitStale), s);
    assert r.peers[s].waiting <= net.peers[s].waiting;
    hide ReleaseOverdue, MarkedOnly;
    QueuesAside(net, r, s);
  }

  lemma QueuesAside(net: Net, r: Net, s: Socket)
    requires OnlyQueues(net, r) && s in net.peers && r.peers[s].waiting <= net.peers[s].waiting
    ensures Aside(net, r, s)
  {
    MarkedSame(net.peers[s].objs);
    hide MarkedOnly;
  }

  lemma TickAside(net: Net, now: nat, waitStale: nat, s: Socket)
    requires Sound(net) && s in net.peers && net.peers[s].mask.read
    ensures Aside(net, Tick(net, now, waitStale), s)
  {
    hide Sound, FlushIfDue, UpdateMasks, ReleaseOverdue, SortedKeys, Aside;
    var n := FlushIfDue(net, now);
    FlushAside(net, now, s);
    StillRead(net, n, s);
    var m := UpdateMasks(n, SortedKeys(n.peers.Keys));
    MasksAside(n, SortedKeys(n.peers.Keys), s);
    StillRead(n, m, s);
    OverdueAside(m, now, waitStale, s);
    AsideChain(net, n, m, s);
    AsideChain(net, m, ReleaseOverdue(m, now, waitStale), s);
  }

  // ----- events

  /** Not an event of the peer itself but that it is written to. */
  predicate Elsewhere(e: Event, s: Socket) {
    match e
    case Readable(t, _, _, _) => t != s
    case Fail(t) => t != s
    case _ => true
  }

  lemma AddAside(net: Net, t: Socket, p: Peer, s: Socket)
    requires Sound(net) && t !in net.peers && s in net.peers && p.waiting == 0 && OrderInv(p)
    ensures Aside(net, AddPeer(net, t, p), s)
  {
    hide WaitInv, OrdersInv, Indexes;
    AsideSame(net, AddPeer(net, t, p), s);
  }

  lemma DialAside(net: Net, t: Socket, upstream: bool, s: Socket)
    requires Sound(net) && t !in net.peers && s in net.peers
    ensures OrderInv(DialledPeer(upstream)) && Aside(net, AddPeer(net, t, DialledPeer(upstream)), s)
  {
    hide Sound, AddPeer, Data;
    AddAside(net, t, DialledPeer(upstream), s);
  }

  lemma LocalAside(net: Net, o: Object, s: Socket)
    requires Sound(net) && LOCAL in net.peers && s in net.peers && s != LOCAL
    ensures Aside(net, UpdateLocal(net, o), s)
  {
    CacheIs(net, LOCAL, FullName(o), AsLocal(net.peers[LOCAL].objs, o));
    hide Sound, Cache, PutObject;
    AsideSame(net, UpdateLocal(net, o), s);
  }

  lemma OnlyLocalAside(net: Net, known: set<Blob>, s: Socket)
    requires Sound(net) && LOCAL in net.peers && s in net.peers && s != LOCAL
    ensures Aside(net, RemoveLocalExcept(net, known), s)
  {
    var p := net.peers[LOCAL];
    SoundOrder(net, LOCAL);
    RestrictOrder(p, KnownNames(p.objs, known));
    hide Sound, Indexes, Restrict, KnownNames;
    SetAside(net, LOCAL, Restrict(p, KnownNames(p.objs, known)), s);
  }

  lemma FlagsAside(net: Net, s: Socket)
    requires Sound(net) && s in net.peers
    ensures Aside(net, Flagged(net).(wakeup := false), s) && Aside(net, net.(wakeup := true), s)
  {
    hide Sound;
    AsideSame(net, Flagged(net).(wakeup := false), s);
    AsideSame(net, net.(wakeup := true), s);
  }

  lemma AcceptAside(net: Net, t: Socket, s: Socket)
    requires Sound(net) && t !in net.peers && s in net.peers
    ensures OrderInv(AcceptedPeer) && Aside(net, AddPeer(net, t, AcceptedPeer), s)
  {
    hide Sound, AddPeer;
    AddAside(net, t, AcceptedPeer, s);
  }

  /** Events elsewhere leave a peer that is read from aside. */
  lemma StepAside(net: Net, e: Event, s: Socket)
    requires Sound(net) && Enabled(net, e) && Elsewhere(e, s)
    requires s in net.peers && s != LOCAL && net.peers[s].mask.read
    ensures Aside(net, Step(net, e), s)
  {
    hide Sound, Receive, WriteTo, LosePeer, UpdateLocal, RemoveLocalExcept, Tick, AddPeer, Aside, OrderInv, Flagged;
    hide DialledPeer, AcceptedPeer;
    match e
    case Accept(t) => AcceptAside(net, t, s);
    case Dial(t, upstream) => DialAside(net, t, upstream, s);
    case Readable(t, bytes, closed, clock) => ReceiveAside(net, t, bytes, closed, clock, s);
    case Writable(t, accepts) => WriteAside(net, t, accepts, s);
    case Fail(t) => LoseAside(net, t, s);
    case Notified => FlagsAside(net, s);
    case LocalChange => FlagsAside(net, s);
    case NewLocal(o) => LocalAside(net, o, s);
    case OnlyLocal(known) => OnlyLocalAside(net, known, s);
    case Loop(now, waitStale) => TickAside(net, now, waitStale, s);
  }

  // ----- the list in pieces

  lemma {:induction false} FlattenSplit(frames: seq<Blob>, k: nat)
    requires k <= |frames|
    ensures Flatten(frames) == Flatten(frames[..k]) + Flatten(frames[k..])
  {
    if k == 0 {
      assert frames[0..] == frames && Flatten(frames[..0]) == [];
      assert [] + Flatten(frames) == Flatten(frames);
    } else {
      FlattenSplit(frames[1..], k - 1);
      assert frames[..k][1..] == frames[1..][..k - 1] && frames[1..][k - 1..] == frames[k..];
      Assoc(frames[0], Flatten(frames[1..][..k - 1]), Flatten(frames[k..]));
    }
  }

  lemma Cancel(a: Blob, b: Blob, c: Blob)
    requires a + b == a + c
    ensures b == c
  {
    assert (a + b)[|a|..] == b && (a + c)[|a|..] == c;
  }

  lemma PartSplit(objs: seq<Object>, k: nat, j: nat)
    requires k + j <= |objs| + 2
    ensures Part(objs, k, |objs| + 2)[..j] == Part(objs, k, k + j)
    ensures Part(objs, k, |objs| + 2)[j..] == Part(objs, k + j, |objs| + 2)
    ensures k + j < |objs| + 2 ==> Part(objs, k, |objs| + 2)[j] == ListFrames(objs)[k + j]
  {
    hide ListFrames;
  }

  lemma MarksTell(o: Object, p: Object, sent: Object)
    requires SameButMarks(o, p) && Tells(o, sent, false)
    ensures Tells(p, sent, false) && p.flags.dead == o.flags.dead
  {
  }

  /** Marks make no difference to how far a list has come. */
  lemma InListMarks(x: map<Blob, Object>, y: map<Blob, Object>, before: set<Blob>, objs: seq<Object>, k: nat)
    requires k <= |objs| + 2 && MarkedOnly(x, y) && InList(x, before, objs, k, false)
    ensures InList(y, before, objs, k, false)
  {
    hide Tells, SameButMarks, LastNamed, NamesOf;
    forall n, sent | n in x && Tells(x[n], sent, false)
      ensures Tells(y[n], sent, false)
    {
      MarksTell(x[n], y[n], sent);
    }
    forall n | n in x
      ensures y[n].flags.dead == x[n].flags.dead
    {
      MarksDead(x[n], y[n]);
    }
  }

  lemma MarksDead(o: Object, p: Object)
    requires SameButMarks(o, p)
    ensures p.flags.dead == o.flags.dead
  {
  }

  /** The first k messages of the list have been handled, the next is partly in
      the input, and todo is still to be read. */
  ghost predicate Receiving(net: Net, s: Socket, before: set<Blob>, objs: seq<Object>, k: nat, todo: Blob) {
    && s in net.peers && s != LOCAL && k <= |objs| + 2
    && net.peers[s].connected && net.peers[s].mask.read && net.peers[s].waiting < MAX_PEER_WAITREQS
    && InList(net.peers[s].objs, before, objs, k, false) && Partial(objs, k, net.peers[s].incoming)
    && net.peers[s].incoming + todo == Flatten(Part(objs, k, |objs| + 2))
  }

  lemma ReceivingAside(net: Net, r: Net, s: Socket, before: set<Blob>, objs: seq<Object>, k: nat, todo: Blob)
    requires Receiving(net, s, before, objs, k, todo) && Aside(net, r, s)
    ensures Receiving(r, s, before, objs, k, todo)
  {
    hide InList, Partial, Part, Flatten, MarkedOnly;
    InListMarks(net.peers[s].objs, r.peers[s].objs, before, objs, k);
  }

  /** A read that does not end the connection leaves the mask as it is. */
  lemma ReceiveMask(net: Net, s: Socket, bytes: Blob, clock: Clock, turn: nat)
    requires Sound(net) && s in net.peers && s in Receive(net, s, bytes, false, clock, turn).peers
    ensures var q := Receive(net, s, bytes, false, clock, turn).peers[s];
      q.connected == net.peers[s].connected && q.mask == net.peers[s].mask
  {
    var n, buf := Opened(net, s), net.peers[s].incoming + bytes;
    var o := Process(n, s, buf, clock, turn);
    SoundOrder(net, s);
    ProcessInput(n, s, buf, clock, turn);
    hide Sound, Process, Indexes;
    if o.Kept? {
      SoundOrder(o.net, s);
    }
  }

  /** The messages that are complete with some more bytes of the list. */
  lemma NextPart(objs: seq<Object>, k: nat, input: Blob, todo: Blob) returns (k': nat, rest: Blob)
    requires k <= |objs| + 2 && input + todo == Flatten(Part(objs, k, |objs| + 2))
    ensures k <= k' <= |objs| + 2 && Partial(objs, k', rest)
    ensures input == Flatten(Part(objs, k, k')) + rest
    ensures rest + todo == Flatten(Part(objs, k', |objs| + 2))
  {
    hide ListFrames, Flatten, Part;
    var p := Part(objs, k, |objs| + 2);
    if todo == [] {
      k', rest := |objs| + 2, [];
      assert input + [] == input && Flatten(p) + [] == Flatten(p);
      PartNone(objs, |objs| + 2);
      FlattenNothing();
    } else {
      var j, i := SplitPrefix(p, |input|);
      assert (input + todo)[..|input|] == input;
      k', rest := k + j, p[j][..i];
      PartSplit(objs, k, j);
      FlattenSplit(p, j);
      Assoc(Flatten(p[..j]), rest, todo);
      Cancel(Flatten(p[..j]), rest + todo, Flatten(p[j..]));
    }
  }

  lemma FlattenNothing()
    ensures Flatten([]) == []
  {
  }

  lemma ReceivingRead(net: Net, s: Socket, before: set<Blob>, objs: seq<Object>, k: nat, bytes: Blob, todo: Blob,
                      clock: Clock) returns (k': nat)
    requires Sound(net) && Sendable(objs) && Receiving(net, s, before, objs, k, bytes + todo)
    ensures Receiving(Receive(net, s, bytes, false, clock, 0), s, before, objs, k', todo)
  {
    hide Sound, Receive, InList, Flatten, Part, Partial, Sendable, OthersKept;
    var rest;
    Assoc(net.peers[s].incoming, bytes, todo);
    k', rest := NextPart(objs, k, net.peers[s].incoming + bytes, todo);
    ListRead(net, s, before, objs, k, k', bytes, rest, clock, 0, false);
    var r := Receive(net, s, bytes, false, clock, 0);
    KeptIn(net, r, s);
    ReceiveMask(net, s, bytes, clock, 0);
  }

  /** A read of s that brings more of the list. */
  predicate Feeds(e: Event, s: Socket) {
    e.Readable? && e.s == s && !e.closed
  }

  /** What all reads of s bring. */
  ghost function BytesTo(es: seq<Event>, s: Socket): Blob {
    if es == [] then []
    else
      var e := es[|es| - 1];
      BytesTo(es[..|es| - 1], s) + (if Feeds(e, s) then e.bytes else [])
  }

  ghost predicate ComesIn(net: Net, s: Socket, objs: seq<Object>, es: seq<Event>) {
    && s in net.peers && s != LOCAL && Sendable(objs)
    && net.peers[s].connected && net.peers[s].mask.read && net.peers[s].waiting < MAX_PEER_WAITREQS
    && net.peers[s].incoming == [] && forall e | e in es :: Elsewhere(e, s) || Feeds(e, s)
  }

  lemma ReceivingStarts(net: Net, s: Socket, objs: seq<Object>, es: seq<Event>)
    requires ComesIn(net, s, objs, es)
    ensures Receiving(net, s, net.peers[s].objs.Keys, objs, 0, ListBytes(objs))
  {
    hide ListFrames, ListBytes, Flatten, Sendable, Elsewhere, Feeds;
    FlattenListFrames(objs);
    var f := ListFrames(objs);
    assert f[0..|f|] == f && [] + ListBytes(objs) == ListBytes(objs);
    FrameLong(objs);
  }

  lemma FrameLong(objs: seq<Object>)
    ensures |ListFrames(objs)[0]| > 0
  {
    DecodeEncodeList(|objs|, true);
  }

  lemma {:induction false} ListComesIn(net: Net, s: Socket, objs: seq<Object>, es: seq<Event>, todo: Blob)
    returns (k: nat)
    requires Sound(net) && ComesIn(net, s, objs, es) && BytesTo(es, s) + todo == ListBytes(objs)
    ensures Receiving(RunFrom(net, es), s, net.peers[s].objs.Keys, objs, k, todo)
  {
    hide Sound, Step, Receiving, ListBytes, Sendable, Elsewhere;
    if es == [] {
      ReceivingStarts(net, s, objs, es);
      assert [] + todo == todo;
      k := 0;
    } else {
      var init, e := es[..|es| - 1], es[|es| - 1];
      var before := net.peers[s].objs.Keys;
      var more := (if Feeds(e, s) then e.bytes else []) + todo;
      Assoc(BytesTo(init, s), if Feeds(e, s) then e.bytes else [], todo);
      k := ListComesIn(net, s, objs, init, more);
      k := ReceivingNext(RunFrom(net, init), s, before, objs, k, e, todo);
    }
  }

  lemma ReceivingNext(n: Net, s: Socket, before: set<Blob>, objs: seq<Object>, k: nat, e: Event, todo: Blob)
    returns (k': nat)
    requires Sound(n) && Sendable(objs) && (Elsewhere(e, s) || Feeds(e, s))
    requires Receiving(n, s, before, objs, k, (if Feeds(e, s) then e.bytes else []) + todo)
    ensures Receiving(if Enabled(n, e) then Step(n, e) else n, s, before, objs, k', todo)
  {
    hide Sound, Receive, InList, Flatten, Part, Partial, Sendable;
    if Feeds(e, s) {
      k' := ReceivingRead(n, s, before, objs, k, e.bytes, todo, e.clock);
    } else {
      k' := k;
      assert [] + todo == todo;
      if Enabled(n, e) {
        StepAside(n, e, s);
        ReceivingAside(n, Step(n, e), s, before, objs, k, todo);
      }
    }
  }

  lemma ListEnded(net: Net, s: Socket, before: set<Blob>, objs: seq<Object>, k: nat)
    requires Sendable(objs) && Receiving(net, s, before, objs, k, [])
    ensures net.peers[s].incoming == [] && Synced(net.peers[s].objs, objs, false)
  {
    hide ListFrames, Synced, Syncing, Sendable;
    var p := net.peers[s];
    assert p.incoming + [] == p.incoming;
    if k < |objs| + 2 {
      MoreToCome(objs, k);
    }
  }

  lemma MoreToCome(objs: seq<Object>, k: nat)
    requires k < |objs| + 2
    ensures |Flatten(Part(objs, k, |objs| + 2))| >= |ListFrames(objs)[k]|
  {
    hide ListFrames;
    assert Part(objs, k, |objs| + 2)[0] == ListFrames(objs)[k];
  }

  lemma StillListed(net: Net, s: Socket, before: set<Blob>, objs: seq<Object>, k: nat, todo: Blob)
    requires Receiving(net, s, before, objs, k, todo) && todo != []
    ensures before <= net.peers[s].objs.Keys
  {
    hide Syncing, Synced, ListFrames;
    if k == |objs| + 2 {
      PartNone(objs, k);
      FlattenNothing();
    } else {
      hide InList;
      InListKeepsOld(net.peers[s].objs, before, objs, k, false);
    }
  }

  /** However a full list is cut into reads, and whatever other peers send and
      the main loop does in between, the peer stays connected and every object
      held before is found until the last byte has come, after which the cache
      tells what the list told. */
  lemma DuringList(net: Net, s: Socket, objs: seq<Object>, es: seq<Event>, todo: Blob)
    requires Sound(net) && ComesIn(net, s, objs, es) && BytesTo(es, s) + todo == ListBytes(objs)
    ensures var r := RunFrom(net, es);
      && s in r.peers && r.peers[s].connected
      && (todo != [] ==> net.peers[s].objs.Keys <= r.peers[s].objs.Keys)
      && (todo == [] ==> r.peers[s].incoming == [] && Synced(r.peers[s].objs, objs, false))
  {
    hide Sound, RunFrom, InList, Synced, Partial, Part, Flatten, ListBytes, Sendable, Elsewhere, Feeds;
    var k := ListComesIn(net, s, objs, es, todo);
    if todo == [] {
      ListEnded(RunFrom(net, es), s, net.peers[s].objs.Keys, objs, k);
    } else {
      StillListed(RunFrom(net, es), s, net.peers[s].objs.Keys, objs, k, todo);
    }
  }
}
