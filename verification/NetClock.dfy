/** The clock is read at every message anew. What is dispatched, what is left
    over, who waits and who has been answered do not depend on what it says.
    What is queued does, through the rule that a request is forgotten after
    five minutes; exactly when is proved here. */
module NetClock {
  import opened Bytes
  import opened Wire
  import opened Messages
  import opened Options
  import opened NetState
  import opened NetSteps
  import opened NetFraming
  import opened NetSync
  import opened NetRelay
  import opened NetEffects
  import opened NetAlike

  // ----- where two clocks agree

  lemma MarksDead(net: Net, s: Socket, d: Blob, now: nat)
    requires Sound(net) && s in net.peers && |d| >= 8 && Decode(d) == ListBegin(true)
    ensures Dispatch(net, s, d, now).peers[s].objs == MarkedDead(net.peers[s].objs, now)
  {
    hide Sound, Dispatch, Decode;
    DispatchEffect(net, s, d, now);
  }

  lemma BeginAgrees(a: Net, b: Net, s: Socket, d: Blob, ta: nat, tb: nat)
    requires Alike(a, b, true) && Sound(a) && Sound(b) && s in a.peers && s in b.peers && |d| >= 8
    requires Decode(d) == ListBegin(true) && Alike(Dispatch(a, s, d, ta), Dispatch(b, s, d, tb), true)
    ensures SameForgotten(a.peers[s].objs, b.peers[s].objs, ta, tb)
  {
    hide Sound, Dispatch, Decode, Alike, AlikeObject, MarkDead, Forgotten;
    MarksDead(a, s, d, ta);
    MarksDead(b, s, d, tb);
    forall x | x in a.peers[s].objs && x in b.peers[s].objs
      ensures Forgotten(a.peers[s].objs[x], ta) <==> Forgotten(b.peers[s].objs[x], tb)
    {
      ObjectAlike(a, b, s, x, true);
      ObjectAlike(Dispatch(a, s, d, ta), Dispatch(b, s, d, tb), s, x, true);
      MarkedIs(a.peers[s], ta);
      MarkedIs(b.peers[s], tb);
      MarkAgrees(a.peers[s].objs[x], b.peers[s].objs[x], ta, tb);
    }
  }

  lemma MarkAgrees(o: Object, p: Object, ta: nat, tb: nat)
    requires AlikeObject(o, p, true) && AlikeObject(MarkDead(o, ta), MarkDead(p, tb), true)
    ensures Forgotten(o, ta) <==> Forgotten(p, tb)
  {
  }

  lemma Touches(net: Net, s: Socket, d: Blob, name: Blob, k: Socket, now: nat)
    requires Sound(net) && s in net.peers && |d| >= 8 && Decode(d) == GetObject(name)
    requires FindOwner(net.peers, name) == Some(k)
    ensures var r := Dispatch(net, s, d, now);
      k in r.peers && name in r.peers[k].objs && r.peers[k].objs[name].lastreq == now
  {
    hide Sound, Dispatch, Decode, FindOwner;
    DispatchEffect(net, s, d, now);
  }

  lemma GetAgrees(a: Net, b: Net, s: Socket, d: Blob, name: Blob, ta: nat, tb: nat)
    requires Alike(a, b, true) && Sound(a) && Sound(b) && s in a.peers && s in b.peers && |d| >= 8
    requires Decode(d) == GetObject(name) && Alike(Dispatch(a, s, d, ta), Dispatch(b, s, d, tb), true)
    ensures FindOwner(a.peers, name).Some? ==> (ta > 0 <==> tb > 0)
  {
    hide Sound, Dispatch, Decode, Alike, FindOwner;
    OwnerAlike(a, b, name, true);
    if FindOwner(a.peers, name).Some? {
      var k := FindOwner(a.peers, name).value;
      Touches(a, s, d, name, k, ta);
      Touches(b, s, d, name, k, tb);
      ObjectAlike(Dispatch(a, s, d, ta), Dispatch(b, s, d, tb), k, name, true);
    }
  }

  /** Under two clocks a message keeps the states exactly alike iff the clocks
      agree on what it depends on. */
  lemma AgreeIff(a: Net, b: Net, s: Socket, d: Blob, ta: nat, tb: nat)
    requires Alike(a, b, true) && Sound(a) && Sound(b) && s in a.peers && s in b.peers && |d| >= 8
    ensures Alike(Dispatch(a, s, d, ta), Dispatch(b, s, d, tb), true) <==> AgreeAt(a, b, s, Decode(d), ta, tb)
  {
    hide Alike, Sound, Dispatch, Decode, FindOwner, SameForgotten;
    if AgreeAt(a, b, s, Decode(d), ta, tb) {
      DispatchAlike(a, b, s, d, ta, tb, true);
    }
    if Alike(Dispatch(a, s, d, ta), Dispatch(b, s, d, tb), true) {
      match Decode(d)
      case ListBegin(full) =>
        if full {
          BeginAgrees(a, b, s, d, ta, tb);
        }
      case GetObject(name) => GetAgrees(a, b, s, d, name, ta, tb);
      case _ =>
    }
  }

  // ----- the loop

  /** The two clocks agree at each message that the loop dispatches. */
  ghost predicate Agree(a: Net, b: Net, s: Socket, buf: Blob, ca: Clock, cb: Clock, turn: nat)
    requires Sound(a) && Sound(b) && s in a.peers && s in b.peers
    decreases |buf|
  {
    Dispatches(a.peers[s], buf) && Dispatches(b.peers[s], buf) ==>
      var frame, tail := buf[..Word(buf, 0)], buf[Word(buf, 0)..];
      && AgreeAt(a, b, s, Decode(frame), ca(turn), cb(turn))
      && Agree(Dispatch(a, s, frame, ca(turn)), Dispatch(b, s, frame, cb(turn)), s, tail, ca, cb, turn + 1)
  }

  lemma {:induction false} DroppedAlike(a: seq<Wait>, b: seq<Wait>, s: Socket)
    requires SameWaits(a, b)
    ensures SameWaits(DropWaits(a, s), DropWaits(b, s))
  {
    if a != [] {
      DroppedAlike(a[..|a| - 1], b[..|b| - 1], s);
    }
  }

  lemma LoseAlike(a: Net, b: Net, s: Socket, exact: bool)
    requires Alike(a, b, exact) && s in a.peers && s in b.peers
    ensures Alike(LosePeer(a, s), LosePeer(b, s), exact)
  {
    PeerAlike(a, b, s, exact);
    assert a.peers[s].objs.Keys == b.peers[s].objs.Keys;
    NoObjects(a.peers[s].objs, b.peers[s].objs);
    DroppedAlike(a.waiting, b.waiting, s);
    hide AlikePeer, SameWaits, DropWaits, WaitInv;
  }

  lemma NoObjects(x: map<Blob, Object>, y: map<Blob, Object>)
    requires x.Keys == y.Keys
    ensures x != map[] <==> y != map[]
  {
    assert x == map[] <==> x.Keys == {};
    assert y == map[] <==> y.Keys == {};
  }

  ghost predicate SameOutcome(x: Outcome, y: Outcome, exact: bool) {
    && x.Kept? == y.Kept? && x.frames == y.frames && (x.Kept? ==> x.rest == y.rest)
    && Alike(x.net, y.net, exact)
  }

  lemma PrependSame(frame: Blob, x: Outcome, y: Outcome, exact: bool)
    requires SameOutcome(x, y, exact)
    ensures SameOutcome(Prepend([frame], x), Prepend([frame], y), exact)
  {
    hide Alike;
  }

  lemma SameWaiting(a: Net, b: Net, s: Socket, exact: bool)
    requires Alike(a, b, exact) && s in a.peers && s in b.peers
    ensures a.peers[s].waiting == b.peers[s].waiting
  {
    PeerAlike(a, b, s, exact);
  }

  /** Whatever two clocks say, the loop dispatches the same messages, keeps the
      same input, fails at the same point or not at all, and leads to states
      that are alike, and exactly so if the clocks agree. */
  lemma {:induction false} ClockDoesNotMatter(a: Net, b: Net, s: Socket, buf: Blob, ca: Clock, cb: Clock, turn: nat,
                                              exact: bool)
    requires Alike(a, b, exact) && Sound(a) && Sound(b) && s in a.peers && s in b.peers
    requires exact ==> Agree(a, b, s, buf, ca, cb, turn)
    ensures SameOutcome(Process(a, s, buf, ca, turn), Process(b, s, buf, cb, turn), exact)
    decreases |buf|
  {
    hide Sound, Process, Dispatch, Decode, Alike, Framed, Word, AgreeAt, Waits;
    SameWaiting(a, b, s, exact);
    if Dispatches(a.peers[s], buf) {
      var frame, tail := buf[..Word(buf, 0)], buf[Word(buf, 0)..];
      ProcessHead(a, s, buf, ca, turn);
      ProcessHead(b, s, buf, cb, turn);
      var n, m := Dispatch(a, s, frame, ca(turn)), Dispatch(b, s, frame, cb(turn));
      DispatchAlike(a, b, s, frame, ca(turn), cb(turn), exact);
      hide SameOutcome, Prepend;
      ClockDoesNotMatter(n, m, s, tail, ca, cb, turn + 1, exact);
      PrependSame(frame, Process(n, s, tail, ca, turn + 1), Process(m, s, tail, cb, turn + 1), exact);
    } else {
      ProcessStops(a, s, buf, ca, turn);
      ProcessStops(b, s, buf, cb, turn);
      WaitsSame(a.peers[s], b.peers[s], buf);
      LoseAlike(a, b, s, exact);
    }
  }

  lemma WaitsSame(p: Peer, q: Peer, buf: Blob)
    requires p.waiting == q.waiting
    ensures Waits(p, buf) == Waits(q, buf)
  {
  }

  // ----- read events

  lemma OpenedAlike(a: Net, b: Net, s: Socket, exact: bool)
    requires Alike(a, b, exact) && Sound(a) && Sound(b) && s in a.peers && s in b.peers
    ensures Alike(Opened(a, s), Opened(b, s), exact)
  {
    SoundOrder(a, s);
    SoundOrder(b, s);
    PeerAlike(a, b, s, exact);
    StatusAlike(a.peers[s], b.peers[s], TakeInput(a.peers[s]), TakeInput(b.peers[s]), exact);
    hide Alike, Sound, AlikePeer, Indexes;
    StatusSet(a, b, s, TakeInput(a.peers[s]), TakeInput(b.peers[s]), exact);
  }

  lemma FinishAlike(x: Outcome, y: Outcome, s: Socket, closed: bool, exact: bool)
    requires Sound(x.net) && Sound(y.net) && SameOutcome(x, y, exact)
    requires x.Kept? ==> s in x.net.peers && s in y.net.peers
    ensures Alike(Finish(x, s, closed), Finish(y, s, closed), exact)
  {
    if x.Kept? {
      SoundOrder(x.net, s);
      SoundOrder(y.net, s);
      PeerAlike(x.net, y.net, s, exact);
      var p, q := PutBack(x.net.peers[s], x.rest, closed), PutBack(y.net.peers[s], y.rest, closed);
      StatusAlike(x.net.peers[s], y.net.peers[s], p, q, exact);
      hide Alike, Sound, AlikePeer, Indexes;
      StatusSet(x.net, y.net, s, p, q, exact);
    }
  }

  /** The two clocks agree at each message that a read leads to. */
  ghost predicate AgreeOn(a: Net, b: Net, s: Socket, bytes: Blob, ca: Clock, cb: Clock, turn: nat)
    requires Sound(a) && Sound(b) && s in a.peers && s in b.peers
  {
    Agree(Opened(a, s), Opened(b, s), s, a.peers[s].incoming + bytes, ca, cb, turn)
  }

  lemma ReceiveAlike(a: Net, b: Net, s: Socket, bytes: Blob, closed: bool, ca: Clock, cb: Clock, turn: nat, exact: bool)
    requires Alike(a, b, exact) && Sound(a) && Sound(b) && s in a.peers && s in b.peers
    requires exact ==> AgreeOn(a, b, s, bytes, ca, cb, turn)
    ensures Alike(Receive(a, s, bytes, closed, ca, turn), Receive(b, s, bytes, closed, cb, turn), exact)
  {
    PeerAlike(a, b, s, exact);
    hide Alike, Sound, Opened, Finish, Process, Agree, SameOutcome, AlikeObjects, AlikeLogs, Heard;
    OpenedAlike(a, b, s, exact);
    var buf := a.peers[s].incoming + bytes;
    ClockDoesNotMatter(Opened(a, s), Opened(b, s), s, buf, ca, cb, turn, exact);
    var x, y := Process(Opened(a, s), s, buf, ca, turn), Process(Opened(b, s), s, buf, cb, turn);
    OutcomeKind(x, y, exact);
    FinishAlike(x, y, s, closed, exact);
  }

  lemma OutcomeKind(x: Outcome, y: Outcome, exact: bool)
    requires SameOutcome(x, y, exact)
    ensures x.Kept? == y.Kept?
  {
  }

  lemma AlikeItself(net: Net, exact: bool)
    ensures Alike(net, net, exact)
  {
    forall s | s in net.peers
      ensures AlikePeer(net.peers[s], net.peers[s], exact)
    {
      LogAlikeItself(Heard(net.peers[s].log));
    }
    hide AlikePeer;
  }

  lemma LogAlikeItself(log: seq<Queued>)
    ensures AlikeLogs(log, log)
  {
  }

  /** However a byte stream is cut into reads and whenever its messages are
      handled, the state is alike to that after one read of it all at another
      time, and exactly so if the clocks agree. */
  lemma ChunksAndClocksDoNotMatter(net: Net, s: Socket, chunks: seq<Blob>, ca: Clock, cb: Clock, exact: bool)
    requires Sound(net) && s in net.peers && chunks != []
    requires exact ==> AgreeOn(net, net, s, Flatten(chunks), ca, cb, 0)
    ensures Alike(ReceiveAll(net, s, chunks, ca, 0), Receive(net, s, Flatten(chunks), false, cb, 0), exact)
  {
    hide Sound, Alike, Receive, ReceiveAll, AgreeOn, Flatten;
    AlikeItself(net, exact);
    ChunksDoNotMatter(net, s, chunks, ca, 0);
    ReceiveAlike(net, net, s, Flatten(chunks), false, ca, cb, 0, exact);
  }

  // ----- what the output tells

  /** The request for data that a summary leads to. */
  function Prompts(objs: map<Blob, Object>, name: Blob): seq<Blob> {
    if name in objs && objs[name].lastreq > 0 then [EncodeGet(name)] else []
  }

  lemma SummaryPrompts(net: Net, s: Socket, name: Blob, now: nat)
    requires Sound(net) && s in net.peers && 36 + |name| < MESSAGE_SIZE_LIMIT
    ensures |Summary(name)| >= 8
    ensures var p := Dispatch(net, s, Summary(name), now).peers[s];
      && p.sendq == net.peers[s].sendq + Prompts(net.peers[s].objs, name)
      && p.waiting == net.peers[s].waiting
  {
    hide Sound, Summary, Decode, Dispatch, HandleObject;
    SummaryDecoded(name);
    DispatchIsHandleObject(net, s, Summary(name), now);
    SummaryHandled(net, s, Decode(Summary(name)));
  }

  lemma SummaryHandled(net: Net, s: Socket, m: Message)
    requires Sound(net) && s in net.peers && m.ObjectReply? && m.data == [] && !m.flags.IsScalar()
    ensures var p := HandleObject(net, s, m).peers[s];
      && p.sendq == net.peers[s].sendq + Prompts(net.peers[s].objs, m.name)
      && p.waiting == net.peers[s].waiting
  {
    hide Sound, HandleObject, ReceivedObject, Cache, Requested, EncodeGet, PutObject;
    var p := AsSource(net.peers[s]);
    var o := ReceivedObject(CachedOrFresh(p, m.name), m);
    StoredFirst(net, s, m);
    SummaryRefreshes(net.peers[s], m);
    var n0 := SetPeer(net, s, p);
    SourceIs(net, s);
    CacheIs(n0, s, m.name, o);
    RequestedIs(Cache(n0, s, m.name, o), s, m.name);
    PutOutput(p, m.name, o);
    hide SetPeer, CachedOrFresh, Refreshes, Prompts, AsSource;
  }

  lemma PutOutput(p: Peer, name: Blob, o: Object)
    ensures PutObject(p, name, o).sendq == p.sendq && PutObject(p, name, o).waiting == p.waiting
  {
  }

  lemma SummaryRefreshes(p: Peer, m: Message)
    requires m.ObjectReply? && m.data == [] && !m.flags.IsScalar()
    ensures Prompts(p.objs, m.name) ==
      if Refreshes(ReceivedObject(CachedOrFresh(AsSource(p), m.name), m), m) then [EncodeGet(m.name)] else []
  {
    hide EncodeGet;
  }

  lemma StoredFirst(net: Net, s: Socket, m: Message)
    requires Sound(net) && s in net.peers && m.ObjectReply? && m.data == []
    ensures OrderInv(net.peers[s])
    ensures var p := AsSource(net.peers[s]);
      var o := ReceivedObject(CachedOrFresh(p, m.name), m);
      var n1 := Cache(SetPeer(net, s, p), s, m.name, o);
      HandleObject(net, s, m) == if Refreshes(o, m) then Requested(n1, s, m.name) else n1
  {
    SourceIs(net, s);
    hide Sound, OrderInv, ReceivedObject, Cache, Requested, Released, CachedOrFresh;
  }

  ghost predicate OutputAlike(a: Net, b: Net) {
    a.peers.Keys == b.peers.Keys && forall s | s in a.peers :: SameOutput(a.peers[s], b.peers[s])
  }

  /** No name is too long for a summary. */
  ghost predicate NamesFit(net: Net) {
    forall s, n | s in net.peers && n in net.peers[s].objs :: 36 + |n| < MESSAGE_SIZE_LIMIT
  }

  /** Whatever single message comes next, it leads to the same output. */
  ghost predicate Indistinguishable(a: Net, b: Net)
    requires Sound(a) && Sound(b) && a.peers.Keys == b.peers.Keys
  {
    forall s, d: Blob, now: nat | s in a.peers && |d| >= 8 ::
      OutputAlike(Dispatch(a, s, d, now), Dispatch(b, s, d, now))
  }

  lemma ExactOutput(a: Net, b: Net)
    requires Alike(a, b, true)
    ensures OutputAlike(a, b)
  {
    hide AlikeStatus, AlikeObjects, AlikeLogs, Heard, SameOutput, SameWaits;
  }

  lemma BeginQuiet(net: Net, s: Socket, d: Blob, now: nat)
    requires Sound(net) && s in net.peers && |d| >= 8 && Decode(d).ListBegin?
    ensures OutputAlike(net, Dispatch(net, s, d, now))
  {
    hide Decode, Sound, HandleListBegin;
    assert Dispatch(net, s, d, now) == HandleListBegin(net, s, Decode(d).full, now);
    hide Dispatch, OutputAlike;
    HandledQuiet(net, s, Decode(d).full, now);
  }

  lemma HandledQuiet(net: Net, s: Socket, full: bool, now: nat)
    requires Sound(net) && s in net.peers
    ensures OutputAlike(net, HandleListBegin(net, s, full, now))
  {
    MarkedOrder(net, s, now);
    hide Sound, OrderInv, MarkDead;
  }

  lemma OutputChain(a: Net, b: Net, n: Net, m: Net)
    requires OutputAlike(a, b) && OutputAlike(a, n) && OutputAlike(b, m)
    ensures OutputAlike(n, m)
  {
  }

  lemma NextOutput(a: Net, b: Net, s: Socket, d: Blob, now: nat)
    requires Alike(a, b, true) && Sound(a) && Sound(b) && s in a.peers && s in b.peers && |d| >= 8
    ensures OutputAlike(Dispatch(a, s, d, now), Dispatch(b, s, d, now))
  {
    hide Alike, Sound, Decode, Dispatch, OutputAlike;
    if Decode(d).ListBegin? {
      BeginQuiet(a, s, d, now);
      BeginQuiet(b, s, d, now);
      ExactOutput(a, b);
      OutputChain(a, b, Dispatch(a, s, d, now), Dispatch(b, s, d, now));
    } else {
      DispatchAlike(a, b, s, d, now, now, true);
      ExactOutput(Dispatch(a, s, d, now), Dispatch(b, s, d, now));
    }
  }

  lemma TellsApart(a: Net, b: Net, s: Socket, name: Blob)
    requires Sound(a) && Sound(b) && a.peers.Keys == b.peers.Keys && OutputAlike(a, b) && Indistinguishable(a, b)
    requires s in a.peers && name in a.peers[s].objs && name in b.peers[s].objs && 36 + |name| < MESSAGE_SIZE_LIMIT
    ensures a.peers[s].objs[name].lastreq > 0 <==> b.peers[s].objs[name].lastreq > 0
  {
    hide Sound, Dispatch, Summary, EncodeGet;
    SummaryPrompts(a, s, name, 0);
    SummaryPrompts(b, s, name, 0);
    assert OutputAlike(Dispatch(a, s, Summary(name), 0), Dispatch(b, s, Summary(name), 0));
    assert SameOutput(Dispatch(a, s, Summary(name), 0).peers[s], Dispatch(b, s, Summary(name), 0).peers[s]);
  }

  lemma SameKeys(a: Net, b: Net, exact: bool)
    requires Alike(a, b, exact)
    ensures a.peers.Keys == b.peers.Keys
  {
  }

  lemma PeerExact(p: Peer, q: Peer)
    requires AlikePeer(p, q, false) && SameOutput(p, q)
    requires forall n | n in p.objs && n in q.objs :: p.objs[n].lastreq > 0 <==> q.objs[n].lastreq > 0
    ensures AlikePeer(p, q, true)
  {
    hide AlikeLogs, Heard;
  }

  lemma AllExact(a: Net, b: Net)
    requires Alike(a, b, false)
    requires forall s | s in a.peers && s in b.peers :: AlikePeer(a.peers[s], b.peers[s], true)
    ensures Alike(a, b, true)
  {
    hide AlikePeer, SameWaits;
  }

  /** Of two nodes that are alike and have written the same, no next message
      leads to different output iff they are exactly alike. */
  lemma ExactIff(a: Net, b: Net)
    requires Alike(a, b, false) && Sound(a) && Sound(b) && OutputAlike(a, b) && NamesFit(a)
    ensures a.peers.Keys == b.peers.Keys
    ensures Alike(a, b, true) <==> Indistinguishable(a, b)
  {
    SameKeys(a, b, false);
    hide Alike, Sound, Dispatch, AlikePeer;
    if Alike(a, b, true) {
      forall s, d: Blob, now: nat | s in a.peers && |d| >= 8
        ensures OutputAlike(Dispatch(a, s, d, now), Dispatch(b, s, d, now))
      {
        NextOutput(a, b, s, d, now);
      }
    }
    if Indistinguishable(a, b) {
      forall s | s in a.peers && s in b.peers
        ensures AlikePeer(a.peers[s], b.peers[s], true)
      {
        forall n | n in a.peers[s].objs && n in b.peers[s].objs
          ensures a.peers[s].objs[n].lastreq > 0 <==> b.peers[s].objs[n].lastreq > 0
        {
          TellsApart(a, b, s, n);
        }
        PeerAlike(a, b, s, false);
        PeerExact(a.peers[s], b.peers[s]);
      }
      AllExact(a, b);
    }
  }

  lemma WeakerNet(a: Net, b: Net)
    requires Alike(a, b, true)
    ensures Alike(a, b, false)
  {
    forall s | s in a.peers
      ensures AlikePeer(a.peers[s], b.peers[s], false)
    {
      PeerAlike(a, b, s, true);
      WeakerPeer(a.peers[s], b.peers[s]);
    }
    hide AlikePeer;
  }

  lemma WeakerPeer(p: Peer, q: Peer)
    requires AlikePeer(p, q, true)
    ensures AlikePeer(p, q, false)
  {
    hide AlikeLogs, Heard;
  }

  lemma NewNameFits(d: Blob)
    requires Framed(d) && |d| >= 8 && Decode(d).ObjectReply?
    ensures 36 + |Decode(d).name| < MESSAGE_SIZE_LIMIT
  {
  }

  lemma CacheNames(net: Net, s: Socket, m: Message, now: nat, t: Socket, n: Blob)
    requires s in net.peers && t in net.peers && n in CacheAfter(net, s, m, now, t)
    ensures n in net.peers[t].objs || (m.ObjectReply? && n == m.name)
  {
    hide FindOwner, ReceivedObject, CachedOrFresh;
  }

  lemma FitsOne(net: Net, t: Socket, n: Blob)
    requires NamesFit(net) && t in net.peers && n in net.peers[t].objs
    ensures 36 + |n| < MESSAGE_SIZE_LIMIT
  {
  }

  lemma NamesStillFit(net: Net, s: Socket, d: Blob, now: nat)
    requires Sound(net) && s in net.peers && Framed(d) && |d| >= 8 && NamesFit(net)
    ensures NamesFit(Dispatch(net, s, d, now))
  {
    var m, r := Decode(d), Dispatch(net, s, d, now);
    if m.ObjectReply? {
      NewNameFits(d);
    }
    hide Sound, Dispatch, Decode, Framed, CacheAfter, WaitsAfter;
    DispatchEffect(net, s, d, now);
    forall t, n | t in r.peers && n in r.peers[t].objs
      ensures 36 + |n| < MESSAGE_SIZE_LIMIT
    {
      CacheNames(net, s, m, now, t, n);
      if n in net.peers[t].objs {
        hide NamesFit;
        FitsOne(net, t, n);
      }
    }
  }

  /** After each message that two loops dispatch, they have the same output, and
      no single next message will change that. */
  ghost predicate NeverTold(a: Net, b: Net, s: Socket, buf: Blob, ca: Clock, cb: Clock, turn: nat)
    requires Sound(a) && Sound(b) && s in a.peers && s in b.peers && a.peers.Keys == b.peers.Keys
    decreases |buf|
  {
    Dispatches(a.peers[s], buf) && Dispatches(b.peers[s], buf) ==>
      var frame, tail := buf[..Word(buf, 0)], buf[Word(buf, 0)..];
      var n, m := Dispatch(a, s, frame, ca(turn)), Dispatch(b, s, frame, cb(turn));
      OutputAlike(n, m) && Indistinguishable(n, m) && NeverTold(n, m, s, tail, ca, cb, turn + 1)
  }

  /** One message: the output is the same and stays so iff the clocks agree. */
  lemma ToldIff(a: Net, b: Net, s: Socket, d: Blob, ta: nat, tb: nat)
    requires Alike(a, b, true) && Sound(a) && Sound(b) && s in a.peers && s in b.peers && |d| >= 8
    requires Framed(d) && NamesFit(a)
    ensures var n, m := Dispatch(a, s, d, ta), Dispatch(b, s, d, tb);
      && n.peers.Keys == m.peers.Keys && NamesFit(n)
      && (OutputAlike(n, m) && Indistinguishable(n, m) <==> Alike(n, m, true))
      && (Alike(n, m, true) <==> AgreeAt(a, b, s, Decode(d), ta, tb))
  {
    hide Alike, Sound, Dispatch, Decode, AgreeAt, OutputAlike, Indistinguishable, NamesFit, Framed;
    var n, m := Dispatch(a, s, d, ta), Dispatch(b, s, d, tb);
    WeakerNet(a, b);
    DispatchAlike(a, b, s, d, ta, tb, false);
    SameKeys(n, m, false);
    NamesStillFit(a, s, d, ta);
    AgreeIff(a, b, s, d, ta, tb);
    if Alike(n, m, true) {
      ExactOutput(n, m);
    }
    if OutputAlike(n, m) {
      ExactIff(n, m);
    }
  }

  /** Under two clocks the output is the same after each message, and stays so
      whatever message comes next, iff the clocks agree at each message. */
  lemma {:induction false} SameOutputIff(a: Net, b: Net, s: Socket, buf: Blob, ca: Clock, cb: Clock, turn: nat)
    requires Alike(a, b, true) && Sound(a) && Sound(b) && s in a.peers && s in b.peers && NamesFit(a)
    ensures a.peers.Keys == b.peers.Keys
    ensures NeverTold(a, b, s, buf, ca, cb, turn) <==> Agree(a, b, s, buf, ca, cb, turn)
    decreases |buf|
  {
    hide Alike, Sound, Dispatch, Decode, AgreeAt, OutputAlike, Indistinguishable, NamesFit, Framed, Word;
    SameKeys(a, b, true);
    if Dispatches(a.peers[s], buf) && Dispatches(b.peers[s], buf) {
      var frame, tail := buf[..Word(buf, 0)], buf[Word(buf, 0)..];
      ProcessHead(a, s, buf, ca, turn);
      ToldIff(a, b, s, frame, ca(turn), cb(turn));
      var n, m := Dispatch(a, s, frame, ca(turn)), Dispatch(b, s, frame, cb(turn));
      if Alike(n, m, true) {
        SameOutputIff(n, m, s, tail, ca, cb, turn + 1);
      }
    }
  }

  // ----- where the clock shows

  /** "h" */
  const HISTOGRAM: Blob := [104]

  /** A node with a peer that has the data of a histogram, requested long ago. */
  const RequestedOnce: Object :=
    Object(Flags(0x10, false, false, false, false, false, 0), 0, 0, [], HISTOGRAM, 1, [7], [], [])

  const CachingPeer: Peer := AcceptedPeer.(objs := map[HISTOGRAM := RequestedOnce], order := [HISTOGRAM])

  const CachingNet: Net := InitialNet.(peers := map[LOCAL := NewPeer, 1 := CachingPeer])

  lemma CachingSound()
    ensures Sound(CachingNet)
  {
    assert OrderInv(NewPeer) && OrderInv(CachingPeer);
    assert WaitNames([], 1) == [] && WaitNames([], LOCAL) == [];
  }

  /** With buf in the input, the loop leaves these buckets in the queue of s. */
  ghost predicate Queues(net: Net, s: Socket, buf: Blob, clock: Clock, turn: nat, queue: seq<Blob>)
    requires Sound(net) && s in net.peers
  {
    var o := Process(net, s, buf, clock, turn);
    s in o.net.peers && o.net.peers[s].sendq == queue
  }

  /** LIST_BEGIN for a full list and a summary: up to five minutes after the last
      request the data are asked for, later they are not. */
  lemma ClockShows(ca: Clock, cb: Clock)
    requires ca(0) <= 1 + 300_000_000_000 < cb(0)
    ensures Sound(CachingNet) && 1 in CachingNet.peers
    ensures Queues(CachingNet, 1, EncodeListBegin(1, true) + Summary(HISTOGRAM), ca, 0, [EncodeGet(HISTOGRAM)])
    ensures Queues(CachingNet, 1, EncodeListBegin(1, true) + Summary(HISTOGRAM), cb, 0, [])
  {
    CachingSound();
    hide Sound, Queues, Summary, EncodeGet, EncodeListBegin, Prompts;
    BeginThenSummary(CachingNet, 1, HISTOGRAM, ca);
    BeginThenSummary(CachingNet, 1, HISTOGRAM, cb);
    PromptsMarked(CachingPeer.objs, HISTOGRAM, ca(0));
    PromptsMarked(CachingPeer.objs, HISTOGRAM, cb(0));
    var none: seq<Blob> := [];
    assert CachingPeer.objs[HISTOGRAM] == RequestedOnce && CachingNet.peers[1].sendq == none;
    assert none + [EncodeGet(HISTOGRAM)] == [EncodeGet(HISTOGRAM)] && none + none == none;
  }

  lemma PromptsMarked(objs: map<Blob, Object>, name: Blob, now: nat)
    requires name in objs
    ensures Prompts(MarkedDead(objs, now), name) ==
      if objs[name].lastreq > 0 && !Forgotten(objs[name], now) then [EncodeGet(name)] else []
  {
    hide EncodeGet;
  }

  lemma SummaryQueues(net: Net, s: Socket, name: Blob, clock: Clock, turn: nat)
    requires Sound(net) && s in net.peers && net.peers[s].waiting < MAX_PEER_WAITREQS
    requires 36 + |name| < MESSAGE_SIZE_LIMIT
    ensures Queues(net, s, Summary(name), clock, turn, net.peers[s].sendq + Prompts(net.peers[s].objs, name))
  {
    hide Sound, Process, Dispatch, Summary, Decode, Prompts, Framed;
    SummaryDecoded(name);
    SummaryPrompts(net, s, name, clock(turn));
    assert Summary(name) + [] == Summary(name);
    ProcessFrame(net, s, Summary(name), [], clock, turn);
    ProcessNothing(Dispatch(net, s, Summary(name), clock(turn)), s, clock, turn + 1);
  }

  /** What the two messages queue. */
  lemma BeginThenSummary(net: Net, s: Socket, name: Blob, clock: Clock)
    requires Sound(net) && s in net.peers && net.peers[s].waiting < MAX_PEER_WAITREQS
    requires 36 + |name| < MESSAGE_SIZE_LIMIT
    ensures Queues(net, s, EncodeListBegin(1, true) + Summary(name), clock, 0,
                   net.peers[s].sendq + Prompts(MarkedDead(net.peers[s].objs, clock(0)), name))
  {
    hide Sound, Process, Dispatch, Summary, Decode, Prompts, EncodeListBegin, Framed, MarkedDead;
    var begin := EncodeListBegin(1, true);
    DispatchBegin(net, s, 1, clock(0));
    FramedLong(begin);
    BeginQuiet(net, s, begin, clock(0));
    ProcessFrame(net, s, begin, Summary(name), clock, 0);
    SummaryQueues(Dispatch(net, s, begin, clock(0)), s, name, clock, 1);
  }
}
