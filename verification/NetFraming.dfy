/** The message loop does not care how the byte stream is cut into reads. */
module NetFraming {
  import opened Bytes
  import opened Wire
  import opened Messages
  import opened Options
  import opened NetState
  import opened NetSteps

  /** The same input, and the same events wanted. */
  ghost predicate SameInput(net: Net, r: Net) {
    && r.peers.Keys == net.peers.Keys
    && forall s | s in net.peers ::
         var p, q := net.peers[s], r.peers[s];
         q.incoming == p.incoming && q.mask == p.mask && q.connected == p.connected
  }

  lemma InputChain(a: Net, b: Net, c: Net)
    requires SameInput(a, b) && SameInput(b, c)
    ensures SameInput(a, c)
  {
  }

  lemma SetInput(net: Net, s: Socket, p: Peer)
    requires Sound(net) && s in net.peers && OrderInv(p)
    requires p == net.peers[s].(objs := p.objs, order := p.order, asked := p.asked)
    ensures SameInput(net, SetPeer(net, s, p))
  {
  }

  lemma CacheInput(net: Net, s: Socket, name: Blob, o: Object)
    requires Sound(net) && s in net.peers
    ensures SameInput(net, Cache(net, s, name, o))
  {
    assert OrderInv(net.peers[s]);
    PutObjectOrder(net.peers[s], name, o);
    hide WaitInv, OrdersInv;
    SetInput(net, s, PutObject(net.peers[s], name, o));
  }

  lemma QueuesInput(net: Net, r: Net)
    requires OnlyQueues(net, r)
    ensures SameInput(net, r)
  {
  }

  lemma AnswerInput(net: Net, s: Socket, name: Blob, k: Socket, now: nat)
    requires Sound(net) && s in net.peers && k in net.peers && name in net.peers[k].objs
    ensures SameInput(net, AnswerFrom(net, s, name, k, now).net)
  {
    hide WaitInv, OrdersInv, Cache, WaitForData, OnlyQueues, SameInput;
    var o := net.peers[k].objs[name].(lastreq := now);
    var n := Cache(net, k, name, o);
    CacheInput(net, k, name, o);
    QueuesInput(n, WaitForData(n, s, name, k, now));
    InputChain(net, n, WaitForData(n, s, name, k, now));
  }

  lemma AskedInput(net: Net, s: Socket, name: Blob)
    requires Sound(net) && s in net.peers
    ensures SameInput(net, Asked(net, s, name))
  {
    assert OrderInv(net.peers[s]);
    hide WaitInv, OrdersInv;
    SetInput(net, s, AskedBy(net.peers[s], name));
  }

  lemma GetInput(net: Net, s: Socket, name: Blob, now: nat)
    requires Sound(net) && s in net.peers
    ensures SameInput(net, HandleGet(net, s, name, now).net)
  {
    hide Sound, Asked, AnswerFrom, SameInput, FindOwner;
    AskedInput(net, s, name);
    var n := Asked(net, s, name);
    match FindOwner(n.peers, name)
    case None =>
    case Some(k) =>
      AnswerInput(n, s, name, k, now);
      InputChain(net, n, AnswerFrom(n, s, name, k, now).net);
  }

  lemma SourceInput(net: Net, s: Socket)
    requires Sound(net) && s in net.peers
    ensures OrderInv(net.peers[s]) && SameInput(net, SetPeer(net, s, AsSource(net.peers[s])))
  {
    assert OrderInv(net.peers[s]);
  }

  lemma RequestedInput(net: Net, s: Socket, name: Blob)
    requires Sound(net) && s in net.peers
    ensures SameInput(net, Requested(net, s, name))
  {
    hide WaitInv, OrdersInv, RequestObjectData, OnlyQueues, SameInput;
    QueuesInput(net, RequestObjectData(net, s, name));
  }

  lemma ReleasedInput(net: Net, name: Blob, o: Option<Object>)
    requires Sound(net)
    ensures SameInput(net, Released(net, name, o))
  {
    hide WaitInv, OrdersInv, ReleaseWaiters, OnlyQueues, SameInput;
    QueuesInput(net, ReleaseWaiters(net, name, o));
  }

  lemma ObjectInput(net: Net, s: Socket, m: Message)
    requires Sound(net) && s in net.peers && m.ObjectReply?
    ensures SameInput(net, HandleObject(net, s, m))
  {
    SourceInput(net, s);
    hide Sound, SetPeer, Cache, Released, Requested, ReceivedObject, SameInput, OrderInv;
    var n0 := SetPeer(net, s, AsSource(net.peers[s]));
    var o := ReceivedObject(CachedOrFresh(n0.peers[s], m.name), m);
    var n1 := Cache(n0, s, m.name, o);
    CacheInput(n0, s, m.name, o);
    InputChain(net, n0, n1);
    RequestedInput(n1, s, m.name);
    InputChain(net, n1, Requested(n1, s, m.name));
    var n2 := if o.lastreq > 0 && m.data == [] && !o.flags.IsScalar() then Requested(n1, s, m.name) else n1;
    ReleasedInput(n2, m.name, Some(o));
    InputChain(net, n2, Released(n2, m.name, Some(o)));
  }

  lemma PurgedInput(net: Net, s: Socket)
    requires Sound(net) && s in net.peers
    ensures SameInput(net, Purged(net, s))
  {
  }

  lemma NoneInput(net: Net, s: Socket, name: Blob)
    requires Sound(net) && s in net.peers
    ensures SameInput(net, HandleNone(net, s, name))
  {
    SourceInput(net, s);
    hide Sound, SetPeer, Cache, Purged, Released, SameInput, OrderInv;
    var n0 := SetPeer(net, s, AsSource(net.peers[s]));
    if name in n0.peers[s].objs {
      var o := n0.peers[s].objs[name];
      var n1 := Cache(n0, s, name, o.(flags := o.flags.(dead := true)));
      CacheInput(n0, s, name, o.(flags := o.flags.(dead := true)));
      PurgedInput(n1, s);
      ReleasedInput(Purged(n1, s), name, None);
      InputChain(net, n0, n1);
      InputChain(net, n1, Purged(n1, s));
      InputChain(net, Purged(n1, s), Released(Purged(n1, s), name, None));
    } else {
      ReleasedInput(n0, name, None);
      InputChain(net, n0, Released(n0, name, None));
    }
  }

  lemma ListBeginInput(net: Net, s: Socket, full: bool, now: nat)
    requires Sound(net) && s in net.peers
    ensures SameInput(net, HandleListBegin(net, s, full, now))
  {
    assert OrderInv(net.peers[s]);
  }

  lemma CountedInput(net: Net, s: Socket)
    requires Sound(net) && s in net.peers
    ensures SameInput(net, CountUpdate(net, s))
  {
    assert OrderInv(net.peers[s]);
  }

  lemma FlaggedInput(net: Net)
    requires Sound(net)
    ensures SameInput(net, Flagged(net))
  {
    hide Sound;
  }

  lemma ListEndInput(net: Net, s: Socket, full: bool)
    requires Sound(net) && s in net.peers
    ensures SameInput(net, HandleListEnd(net, s, full))
  {
    var n := if full then Purged(net, s) else net;
    PurgedInput(net, s);
    assert SameInput(net, n);
    hide Sound, Purged, CountUpdate, SameInput, Flagged;
    FlaggedInput(n);
    FlaggedPeers(n);
    CountedInput(Flagged(n), s);
    InputChain(net, n, Flagged(n));
    InputChain(net, Flagged(n), CountUpdate(Flagged(n), s));
  }

  lemma FlaggedPeers(net: Net)
    requires Sound(net)
    ensures Flagged(net).peers == net.peers
  {
    hide Sound;
  }

  lemma QueueInput(net: Net, s: Socket, q: Queued)
    requires Sound(net) && s in net.peers
    ensures SameInput(net, Queue(net, s, q))
  {
    hide Data;
    assert OrderInv(net.peers[s]);
  }

  lemma UpdateMeInput(net: Net, s: Socket)
    requires Sound(net) && s in net.peers
    ensures OrderInv(net.peers[s]) && SameInput(net, SetPeer(net, s, WantsUpdates(net.peers[s])))
  {
    assert OrderInv(net.peers[s]);
  }

  lemma MessageInput(net: Net, s: Socket, d: Blob, now: nat)
    requires Sound(net) && s in net.peers && |d| >= 8
    ensures SameInput(net, OnMessage(net, s, d, now).net)
  {
    hide WaitInv, OrdersInv, SetPeer, Decode, AllObjects;
    hide HandleGet, HandleObject, HandleNone, HandleListBegin, HandleListEnd;
    match Decode(d)
    case UpdateMe => UpdateMeInput(net, s);
    case ListObjects =>
    case GetObject(name) => GetInput(net, s, name, now);
    case ListBegin(full) => ListBeginInput(net, s, full, now);
    case ListEnd(full) => ListEndInput(net, s, full);
    case ObjectReply(_, _, _, _, _, _) => ObjectInput(net, s, Decode(d));
    case NoneReply(name) => NoneInput(net, s, name);
    case Corrupt =>
  }

  /** Handling a message touches no input buffer. */
  lemma DispatchInput(net: Net, s: Socket, d: Blob, now: nat)
    requires Sound(net) && s in net.peers && |d| >= 8
    ensures SameInput(net, Dispatch(net, s, d, now))
  {
    hide WaitInv, OrdersInv, OnMessage, Queue;
    var h := OnMessage(net, s, d, now);
    MessageInput(net, s, d, now);
    if h.reply.Some? {
      QueueInput(h.net, s, h.reply.value);
      InputChain(net, h.net, Queue(h.net, s, h.reply.value));
    }
  }

  lemma {:induction false} ProcessInput(net: Net, s: Socket, buf: Blob, clock: Clock, turn: nat)
    requires Sound(net) && s in net.peers
    ensures Process(net, s, buf, clock, turn).Kept? ==> SameInput(net, Process(net, s, buf, clock, turn).net)
    decreases |buf|
  {
    hide Dispatch, Decode, LostTo, WaitInv, OrdersInv;
    if |buf| >= 4 && net.peers[s].waiting < MAX_PEER_WAITREQS {
      var msglen := Word(buf, 0);
      if 8 <= msglen < MESSAGE_SIZE_LIMIT && msglen <= |buf| {
        var n := Dispatch(net, s, buf[..msglen], clock(turn));
        DispatchInput(net, s, buf[..msglen], clock(turn));
        ProcessInput(n, s, buf[msglen..], clock, turn + 1);
        if Process(n, s, buf[msglen..], clock, turn + 1).Kept? {
          InputChain(net, n, Process(n, s, buf[msglen..], clock, turn + 1).net);
        }
      }
    }
  }

  lemma FlattenCons(d: Blob, ds: seq<Blob>)
    ensures Flatten([d] + ds) == d + Flatten(ds)
  {
    assert ([d] + ds)[1..] == ds;
  }

  function Prepend(frames: seq<Blob>, o: Outcome): Outcome {
    o.(frames := frames + o.frames)
  }

  lemma PrependTwice(a: seq<Blob>, b: seq<Blob>, o: Outcome)
    ensures Prepend(a, Prepend(b, o)) == Prepend(a + b, o)
  {
    assert a + (b + o.frames) == (a + b) + o.frames;
  }

  /** A complete, well-formed message at the head of the input. */
  predicate Ready(buf: Blob) {
    && |buf| >= 4 && 8 <= Word(buf, 0) < MESSAGE_SIZE_LIMIT && Word(buf, 0) <= |buf|
    && !Decode(buf[..Word(buf, 0)]).Corrupt?
  }

  /** A message that will be dispatched. */
  predicate Dispatches(p: Peer, buf: Blob) {
    p.waiting < MAX_PEER_WAITREQS && Ready(buf)
  }

  lemma ProcessHead(net: Net, s: Socket, buf: Blob, clock: Clock, turn: nat)
    requires Sound(net) && s in net.peers && Dispatches(net.peers[s], buf)
    ensures var frame, tail := buf[..Word(buf, 0)], buf[Word(buf, 0)..];
      && Framed(frame) && frame + tail == buf
      && Process(net, s, buf, clock, turn) ==
         Prepend([frame], Process(Dispatch(net, s, frame, clock(turn)), s, tail, clock, turn + 1))
  {
    hide Dispatch, Decode, WaitInv, OrdersInv, LosePeer;
    assert buf[..Word(buf, 0)][0..4] == buf[0..4];
  }

  lemma CorruptChangesNothing(net: Net, s: Socket, d: Blob, now: nat)
    requires Sound(net) && s in net.peers && |d| >= 8 && Decode(d).Corrupt?
    ensures Dispatch(net, s, d, now) == net
  {
    hide Sound, Decode;
  }

  /** No complete message that the wait limit lets through. */
  predicate Waits(p: Peer, buf: Blob) {
    || |buf| < 4 || p.waiting >= MAX_PEER_WAITREQS
    || (Word(buf, 0) < MESSAGE_SIZE_LIMIT && |buf| < Word(buf, 0))
  }

  /** Input that cannot be dispatched is kept or ends the peer. */
  lemma ProcessStops(net: Net, s: Socket, buf: Blob, clock: Clock, turn: nat)
    requires Sound(net) && s in net.peers && !Dispatches(net.peers[s], buf)
    ensures Process(net, s, buf, clock, turn) ==
      if Waits(net.peers[s], buf) then Kept(net, [], buf) else Lost(LosePeer(net, s), [])
  {
    hide Dispatch, Decode, WaitInv, OrdersInv, LosePeer;
    if |buf| >= 4 && 8 <= Word(buf, 0) <= |buf| && Decode(buf[..Word(buf, 0)]).Corrupt? {
      CorruptChangesNothing(net, s, buf[..Word(buf, 0)], clock(turn));
    }
  }

  /** What is dispatched, in order, and what is kept are exactly what came in. */
  lemma {:induction false} ProcessConserves(net: Net, s: Socket, buf: Blob, clock: Clock, turn: nat)
    requires Sound(net) && s in net.peers
    ensures var o := Process(net, s, buf, clock, turn);
      if o.Kept? then Flatten(o.frames) + o.rest == buf else Flatten(o.frames) <= buf
    decreases |buf|
  {
    hide Process, Dispatch, Sound, Decode, Framed, Word;
    if Dispatches(net.peers[s], buf) {
      ProcessHead(net, s, buf, clock, turn);
      var frame, tail := buf[..Word(buf, 0)], buf[Word(buf, 0)..];
      FramedLong(frame);
      ProcessConserves(Dispatch(net, s, frame, clock(turn)), s, tail, clock, turn + 1);
      var o := Process(Dispatch(net, s, frame, clock(turn)), s, tail, clock, turn + 1);
      FlattenCons(frame, o.frames);
      hide Flatten;
      if o.Kept? {
        Assoc(frame, Flatten(o.frames), o.rest);
      }
    } else {
      ProcessStops(net, s, buf, clock, turn);
    }
  }

  /** What is kept is less than a message unless the wait limit has stopped the
      loop; so a complete message is left only there. */
  lemma {:induction false} KeptRest(net: Net, s: Socket, buf: Blob, clock: Clock, turn: nat)
    requires Sound(net) && s in net.peers
    ensures var o := Process(net, s, buf, clock, turn);
      && (o.Kept? && o.net.peers[s].waiting < MAX_PEER_WAITREQS ==> |o.rest| < 4 || |o.rest| < Word(o.rest, 0))
      && (o.Kept? && Ready(o.rest) ==> o.net.peers[s].waiting >= MAX_PEER_WAITREQS)
    decreases |buf|
  {
    hide Process, Dispatch, Decode, LosePeer, Sound, Word;
    if Dispatches(net.peers[s], buf) {
      ProcessHead(net, s, buf, clock, turn);
      var frame, tail := buf[..Word(buf, 0)], buf[Word(buf, 0)..];
      KeptRest(Dispatch(net, s, frame, clock(turn)), s, tail, clock, turn + 1);
    } else {
      ProcessStops(net, s, buf, clock, turn);
    }
  }

  ghost predicate AllFramed(frames: seq<Blob>) {
    forall f | f in frames :: Framed(f)
  }

  /** Every message dispatched has the length its first word says and is within
      the limits, so that at least 8 bytes go with each. */
  lemma {:induction false} ProcessFrames(net: Net, s: Socket, buf: Blob, clock: Clock, turn: nat)
    requires Sound(net) && s in net.peers
    ensures AllFramed(Process(net, s, buf, clock, turn).frames)
    decreases |buf|
  {
    hide Process, Dispatch, Sound, Decode, Framed, Word;
    if Dispatches(net.peers[s], buf) {
      ProcessHead(net, s, buf, clock, turn);
      var frame, tail := buf[..Word(buf, 0)], buf[Word(buf, 0)..];
      FramedLong(frame);
      ProcessFrames(Dispatch(net, s, frame, clock(turn)), s, tail, clock, turn + 1);
    } else {
      ProcessStops(net, s, buf, clock, turn);
    }
  }

  /** Processing a and then b with what a left over, as one loop. */
  function Continue(o: Outcome, s: Socket, b: Blob, clock: Clock, turn: nat): Outcome
    requires Sound(o.net) && (o.Kept? ==> s in o.net.peers)
  {
    if o.Lost? then o else Prepend(o.frames, Process(o.net, s, o.rest + b, clock, turn + |o.frames|))
  }

  lemma ContinuePrepend(frame: Blob, o: Outcome, s: Socket, b: Blob, clock: Clock, turn: nat)
    requires Sound(o.net) && (o.Kept? ==> s in o.net.peers)
    ensures Continue(Prepend([frame], o), s, b, clock, turn) == Prepend([frame], Continue(o, s, b, clock, turn + 1))
  {
    hide Process, WaitInv, OrdersInv;
    if o.Kept? {
      var q := Process(o.net, s, o.rest + b, clock, turn + 1 + |o.frames|);
      assert ([frame] + o.frames) + q.frames == [frame] + (o.frames + q.frames);
    }
  }

  lemma MoreInput(p: Peer, a: Blob, b: Blob)
    requires Dispatches(p, a) || !Waits(p, a)
    ensures Word(a + b, 0) == Word(a, 0) && Waits(p, a + b) == Waits(p, a) && Dispatches(p, a + b) == Dispatches(p, a)
    ensures Dispatches(p, a) ==>
      var len := Word(a, 0); (a + b)[..len] == a[..len] && (a + b)[len..] == a[len..] + b
  {
    hide Decode;
    assert (a + b)[0..4] == a[0..4];
    var len := Word(a, 0);
    if len <= |a| {
      assert (a + b)[..len] == a[..len] && (a + b)[len..] == a[len..] + b;
    }
  }

  lemma ContinueNothing(net: Net, s: Socket, a: Blob, b: Blob, clock: Clock, turn: nat)
    requires Sound(net) && s in net.peers
    ensures Continue(Kept(net, [], a), s, b, clock, turn) == Process(net, s, a + b, clock, turn)
  {
    hide Process, Sound;
    var o := Process(net, s, a + b, clock, turn);
    assert [] + o.frames == o.frames;
    assert Prepend([], o) == o;
    assert Kept(net, [], a).rest + b == a + b && turn + |Kept(net, [], a).frames| == turn;
  }

  /** The loop on a + b is the loop on a, continued with b. */
  lemma {:induction false} ProcessSplit(net: Net, s: Socket, a: Blob, b: Blob, clock: Clock, turn: nat)
    requires Sound(net) && s in net.peers
    ensures Process(net, s, a + b, clock, turn) == Continue(Process(net, s, a, clock, turn), s, b, clock, turn)
    decreases |a|
  {
    hide Process, Dispatch, Decode, LosePeer, Sound, Word, Framed, Waits, Prepend;
    var p := net.peers[s];
    if Dispatches(p, a) {
      MoreInput(p, a, b);
      ProcessHead(net, s, a, clock, turn);
      ProcessHead(net, s, a + b, clock, turn);
      var frame, tail := a[..Word(a, 0)], a[Word(a, 0)..];
      FramedLong(frame);
      var n := Dispatch(net, s, frame, clock(turn));
      hide Continue;
      ProcessSplit(n, s, tail, b, clock, turn + 1);
      ContinuePrepend(frame, Process(n, s, tail, clock, turn + 1), s, b, clock, turn);
    } else {
      ProcessStops(net, s, a, clock, turn);
      if Waits(p, a) {
        hide Continue;
        ContinueNothing(net, s, a, b, clock, turn);
      } else {
        MoreInput(p, a, b);
        ProcessStops(net, s, a + b, clock, turn);
      }
    }
  }

  lemma PutBackPeer(p: Peer, rest: Blob)
    requires p.incoming == []
    ensures TakeInput(PutBack(p, rest, false)) == p && PutBack(p, rest, false).incoming == rest
  {
  }

  lemma UpdateTwice(net: Net, s: Socket, p: Peer)
    requires s in net.peers
    ensures Update(Update(net, s, p), s, net.peers[s]) == net
  {
    assert net.peers[s := p][s := net.peers[s]] == net.peers;
  }

  /** Input put back and taken out again leaves the state the loop left. */
  lemma PutBackAndTake(o: Outcome, s: Socket)
    requires o.Kept? && Sound(o.net) && s in o.net.peers && o.net.peers[s].incoming == []
    ensures var n := Finish(o, s, false);
      && OrderInv(n.peers[s]) && n.peers[s].incoming == o.rest
      && Opened(n, s) == o.net
  {
    var p := o.net.peers[s];
    assert OrderInv(p) && OrderInv(PutBack(p, o.rest, false));
    hide WaitInv, OrdersInv, OrderInv, PutBack, TakeInput;
    PutBackPeer(p, o.rest);
    UpdateTwice(o.net, s, PutBack(p, o.rest, false));
  }

  /** How many messages a read dispatches. */
  function Turns(net: Net, s: Socket, bytes: Blob, clock: Clock, turn: nat): nat
    requires Sound(net) && s in net.peers
  {
    |Process(Opened(net, s), s, net.peers[s].incoming + bytes, clock, turn).frames|
  }

  /** Two reads, one after the other, are one read of both, when the clock says
      the same at each message. */
  lemma ReceiveTwice(net: Net, s: Socket, a: Blob, b: Blob, clock: Clock, turn: nat)
    requires Sound(net) && s in net.peers
    ensures var n, next := Receive(net, s, a, false, clock, turn), turn + Turns(net, s, a, clock, turn);
      Receive(net, s, a + b, false, clock, turn) == if s in n.peers then Receive(n, s, b, false, clock, next) else n
  {
    hide Process, WaitInv, OrdersInv, Opened, SetPeer;
    var n0, input := Opened(net, s), net.peers[s].incoming;
    var o := Process(n0, s, input + a, clock, turn);
    assert (input + a) + b == input + (a + b);
    ProcessSplit(n0, s, input + a, b, clock, turn);
    ProcessInput(n0, s, input + a, clock, turn);
    hide Finish;
    if o.Kept? {
      PutBackAndTake(o, s);
      FinishPrepended(o.frames, Process(o.net, s, o.rest + b, clock, turn + |o.frames|), s);
    } else {
      FinishLost(o, s);
    }
  }

  lemma FinishPrepended(frames: seq<Blob>, o: Outcome, s: Socket)
    requires Sound(o.net) && (o.Kept? ==> s in o.net.peers)
    ensures Finish(Prepend(frames, o), s, false) == Finish(o, s, false)
  {
  }

  lemma FinishLost(o: Outcome, s: Socket)
    requires Sound(o.net) && o.Lost?
    ensures Finish(o, s, false) == o.net
  {
  }

  /** A series of reads from s, until the peer is given up; the clock says
      clock(i) at message i of the stream. */
  function ReceiveAll(net: Net, s: Socket, chunks: seq<Blob>, clock: Clock, turn: nat): (r: Net)
    requires Sound(net) && s in net.peers && chunks != []
    ensures Sound(r)
    decreases |chunks|
  {
    var n := Receive(net, s, chunks[0], false, clock, turn);
    if |chunks| == 1 || s !in n.peers then n
    else ReceiveAll(n, s, chunks[1..], clock, turn + Turns(net, s, chunks[0], clock, turn))
  }

  /** However a byte stream is cut into reads, the state after it is the same:
      the messages dispatched, the bytes left over and the point of failure,
      and also where the limit of waits stops the loop. */
  lemma {:induction false} ChunksDoNotMatter(net: Net, s: Socket, chunks: seq<Blob>, clock: Clock, turn: nat)
    requires Sound(net) && s in net.peers && chunks != []
    ensures ReceiveAll(net, s, chunks, clock, turn) == Receive(net, s, Flatten(chunks), false, clock, turn)
    decreases |chunks|
  {
    hide Receive, Turns;
    hide Sound;
    var n, rest := Receive(net, s, chunks[0], false, clock, turn), chunks[1..];
    var next := turn + Turns(net, s, chunks[0], clock, turn);
    if rest == [] {
      assert Flatten(chunks) == chunks[0] + [] == chunks[0];
    } else {
      ReceiveTwice(net, s, chunks[0], Flatten(rest), clock, turn);
      hide Flatten;
      if s in n.peers {
        ChunksDoNotMatter(n, s, rest, clock, next);
      }
    }
  }

  lemma OpenedIs(net: Net, s: Socket)
    requires Sound(net) && s in net.peers
    ensures Opened(net, s) == Update(net, s, TakeInput(net.peers[s]))
  {
    SoundOrder(net, s);
    hide Sound, Indexes;
  }

  lemma ReceiveIs(net: Net, s: Socket, buf: Blob, closed: bool, clock: Clock)
    requires Sound(net) && s in net.peers && net.peers[s].incoming == []
    ensures Receive(net, s, buf, closed, clock, 0) == Finish(Process(Opened(net, s), s, buf, clock, 0), s, closed)
  {
    hide Sound, Process, Opened, Finish;
    assert [] + buf == buf;
  }
}
