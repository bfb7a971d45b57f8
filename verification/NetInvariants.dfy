/** What holds in every state a DQMNet can reach. */
module NetInvariants {
  import opened Bytes
  import opened Wire
  import opened Messages
  import opened Options
  import opened NetState
  import opened NetSteps

  // ----- one peer

  /** The bytes still to be sent. */
  function Pending(sendq: seq<Blob>, sendpos: nat): Blob {
    var q := Flatten(sendq);
    if sendpos <= |q| then q[sendpos..] else []
  }

  /** The bytes written and those pending are the stream. */
  ghost predicate Carries(sendq: seq<Blob>, sendpos: nat, written: Blob, stream: Blob) {
    && (if sendq == [] then sendpos == 0 else sendpos <= |sendq[0]|)
    && written + Pending(sendq, sendpos) == stream
  }

  /** Everything ever queued, as one stream. */
  function Stream(log: seq<Queued>): Blob {
    if log == [] then [] else Stream(log[..|log| - 1]) + Data(log[|log| - 1])
  }

  /** The requests answered, in order. */
  function Answered(log: seq<Queued>): seq<Blob> {
    if log == [] then []
    else Answered(log[..|log| - 1]) + (if log[|log| - 1].Reply? then [log[|log| - 1].name] else [])
  }

  /** An object found under a name carries the two halves of that name. */
  predicate Names(name: Blob, o: Object) {
    o.dirname == DirOf(name) && o.objname == BaseOf(name)
  }

  /** A reply is the object of the name asked for, or the news that there is none. */
  predicate AnswersItsName(q: Queued) {
    q.Reply? && q.obj.Some? ==> Names(q.name, q.obj.value)
  }

  ghost predicate AllAnswerTheirNames(log: seq<Queued>) {
    forall i | 0 <= i < |log| :: AnswersItsName(log[i])
  }

  ghost predicate AllNames(objs: map<Blob, Object>) {
    forall n | n in objs :: Names(n, objs[n])
  }

  ghost predicate PeerInv(p: Peer) {
    && Carries(p.sendq, p.sendpos, p.written, Stream(p.log))
    && AllNames(p.objs)
    && AllAnswerTheirNames(p.log)
    && p.waiting <= MAX_PEER_WAITREQS
  }

  lemma FlattenFirst(ds: seq<Blob>)
    requires ds != []
    ensures Flatten(ds) == ds[0] + Flatten(ds[1..])
  {
  }

  lemma {:induction false} FlattenConcat(a: seq<Blob>, b: seq<Blob>)
    ensures Flatten(a + b) == Flatten(a) + Flatten(b)
  {
    if a == [] {
      assert a + b == b;
    } else {
      FlattenConcat(a[1..], b);
      FlattenFirst(a);
      FlattenFirst(a + b);
      hide Flatten;
      assert (a + b)[1..] == a[1..] + b;
      Assoc(a[0], Flatten(a[1..]), Flatten(b));
    }
  }

  lemma FlattenOne(d: Blob)
    ensures Flatten([d]) == d
  {
    assert [d][1..] == [];
  }

  lemma AppendPending(sendq: seq<Blob>, sendpos: nat, d: Blob)
    requires sendpos <= |Flatten(sendq)|
    ensures Pending(sendq + [d], sendpos) == Pending(sendq, sendpos) + d
  {
    FlattenConcat(sendq, [d]);
    FlattenOne(d);
    hide Flatten;
    assert (Flatten(sendq) + d)[sendpos..] == Flatten(sendq)[sendpos..] + d;
  }

  lemma AppendCarries(sendq: seq<Blob>, sendpos: nat, written: Blob, stream: Blob, d: Blob)
    requires Carries(sendq, sendpos, written, stream)
    ensures Carries(sendq + [d], sendpos, written, stream + d)
  {
    assert sendpos <= |Flatten(sendq)|;
    AppendPending(sendq, sendpos, d);
    hide Pending, Flatten;
    assert written + (Pending(sendq, sendpos) + d) == (written + Pending(sendq, sendpos)) + d;
  }

  lemma StreamAppend(log: seq<Queued>, q: Queued)
    ensures Stream(log + [q]) == Stream(log) + Data(q)
    ensures Answered(log + [q]) == Answered(log) + (if q.Reply? then [q.name] else [])
  {
    assert (log + [q])[..|log|] == log;
  }

  lemma EnqueueKeepsPeer(p: Peer, q: Queued)
    requires PeerInv(p) && AnswersItsName(q)
    ensures PeerInv(Enqueue(p, q))
    ensures Answered(Enqueue(p, q).log) == Answered(p.log) + (if q.Reply? then [q.name] else [])
  {
    StreamAppend(p.log, q);
    AppendCarries(p.sendq, p.sendpos, p.written, Stream(p.log), Data(q));
  }

  lemma SentPending(b: Blob, rest: Blob, lo: nat, hi: nat)
    requires lo <= hi <= |b|
    ensures (b + rest)[lo..] == b[lo..hi] + (b[hi..] + rest) && (b + rest)[hi..] == b[hi..] + rest
  {
  }

  lemma SentPendingOf(p: Peer, done: nat)
    requires p.sendq != [] && p.sendpos + done <= |p.sendq[0]|
    ensures var q, b := Sent(p, done), p.sendq[0];
      Pending(p.sendq, p.sendpos) == b[p.sendpos..p.sendpos + done] + Pending(q.sendq, q.sendpos)
  {
    SentPending(p.sendq[0], Flatten(p.sendq[1..]), p.sendpos, p.sendpos + done);
  }

  lemma SentCarries(p: Peer, done: nat, stream: Blob)
    requires p.sendq != [] && p.sendpos + done <= |p.sendq[0]|
    requires Carries(p.sendq, p.sendpos, p.written, stream)
    ensures var q := Sent(p, done); Carries(q.sendq, q.sendpos, q.written, stream)
  {
    hide Pending;
    SentPendingOf(p, done);
    var sent, left := p.sendq[0][p.sendpos..p.sendpos + done], Pending(Sent(p, done).sendq, Sent(p, done).sendpos);
    assert (p.written + sent) + left == p.written + (sent + left);
  }

  /** Over any partial writes, the bytes written and those still queued are
      everything queued, in order. */
  lemma {:induction false} WriteCarries(p: Peer, accepts: seq<nat>, stream: Blob)
    requires Carries(p.sendq, p.sendpos, p.written, stream)
    ensures var q := Write(p, accepts); Carries(q.sendq, q.sendpos, q.written, stream)
    decreases |p.sendq|, |accepts|
  {
    if p.sendq != [] {
      var len := |p.sendq[0]| - p.sendpos;
      var offer := if accepts == [] then 0 else accepts[0];
      var done := if offer < len then offer else len;
      SentCarries(p, done, stream);
      if !(done == 0 && len > 0) {
        WriteCarries(Sent(p, done), if len == 0 || accepts == [] then accepts else accepts[1..], stream);
      }
    }
  }

  // ----- the whole net

  /** Requests accepted from s are those answered, those waiting and those owed. */
  ghost predicate Balanced(net: Net, s: Socket, owed: multiset<Blob>)
    requires s in net.peers
  {
    multiset(net.peers[s].asked)
      == multiset(Answered(net.peers[s].log)) + multiset(WaitNames(net.waiting, s)) + owed
  }

  ghost predicate AllPeers(net: Net) {
    forall s | s in net.peers :: PeerInv(net.peers[s])
  }

  ghost predicate AllBalanced(net: Net, debtor: Socket, owed: multiset<Blob>) {
    forall s | s in net.peers :: Balanced(net, s, if s == debtor then owed else multiset{})
  }

  /** The invariant, while the request being handled is still owed to a peer. */
  ghost predicate Owing(net: Net, debtor: Socket, owed: multiset<Blob>) {
    Sound(net) && AllPeers(net) && AllBalanced(net, debtor, owed)
  }

  /** In every state between events: the wait counters are right and within the
      limit, every byte queued to a peer is written or pending, and every
      request accepted is answered or waiting. */
  ghost predicate Inv(net: Net) {
    Owing(net, 0, multiset{})
  }

  lemma NothingOwed(net: Net, s: Socket)
    ensures Inv(net) <==> Owing(net, s, multiset{})
  {
  }

  lemma UpdatePeers(net: Net, k: Socket, p: Peer)
    requires AllPeers(net) && k in net.peers && PeerInv(p)
    ensures AllPeers(Update(net, k, p))
  {
  }

  /** Only peer k and its waits change, and its balance with them. */
  lemma UpdateBalance(net: Net, r: Net, k: Socket, s: Socket, owed: multiset<Blob>, owed': multiset<Blob>)
    requires AllBalanced(net, s, owed) && r.peers.Keys == net.peers.Keys && k in net.peers
    requires k == s || owed == owed'
    requires Balanced(r, k, if k == s then owed' else multiset{})
    requires forall t | t in net.peers && t != k ::
      r.peers[t] == net.peers[t] && WaitNames(r.waiting, t) == WaitNames(net.waiting, t)
    ensures AllBalanced(r, s, owed')
  {
    forall t | t in r.peers
      ensures Balanced(r, t, if t == s then owed' else multiset{})
    {
      assert Balanced(net, t, if t == s then owed else multiset{});
    }
  }

  /** A change of one peer that leaves its requests and replies alone. */
  lemma SetPeerKeeps(net: Net, k: Socket, p: Peer, s: Socket, owed: multiset<Blob>)
    requires Owing(net, s, owed) && k in net.peers && PeerInv(p) && OrderInv(p)
    requires p.waiting == net.peers[k].waiting && p.asked == net.peers[k].asked && p.log == net.peers[k].log
    ensures Owing(SetPeer(net, k, p), s, owed)
  {
    hide WaitInv, OrdersInv, OrderInv, PeerInv, Answered, WaitNames;
    UpdatePeers(net, k, p);
    hide AllPeers;
    assert Balanced(net, k, if k == s then owed else multiset{});
    UpdateBalance(net, SetPeer(net, k, p), k, s, owed, owed);
  }

  lemma CachedPeerInv(net: Net, k: Socket, name: Blob, o: Object)
    requires Sound(net) && AllPeers(net) && k in net.peers && Names(name, o)
    ensures OrderInv(net.peers[k]) && PeerInv(PutObject(net.peers[k], name, o))
  {
    hide WaitInv;
    assert PeerInv(net.peers[k]);
  }

  lemma CacheKeeps(net: Net, k: Socket, name: Blob, o: Object, s: Socket, owed: multiset<Blob>)
    requires Owing(net, s, owed) && k in net.peers && Names(name, o)
    ensures Owing(Cache(net, k, name, o), s, owed)
  {
    CachedPeerInv(net, k, name, o);
    hide AllPeers, AllBalanced, WaitInv, OrdersInv, OrderInv, PeerInv;
    PutObjectOrder(net.peers[k], name, o);
    SetPeerKeeps(net, k, PutObject(net.peers[k], name, o), s, owed);
  }

  lemma QueuePeers(net: Net, k: Socket, q: Queued)
    requires Sound(net) && AllPeers(net) && k in net.peers && AnswersItsName(q)
    ensures AllPeers(Queue(net, k, q))
  {
    hide PeerInv, Data;
    EnqueueKeepsPeer(net.peers[k], q);
    UpdatePeers(net, k, Enqueue(net.peers[k], q));
  }

  lemma QueueBalanceOne(net: Net, k: Socket, q: Queued, owed: multiset<Blob>, owed': multiset<Blob>)
    requires Sound(net) && k in net.peers && Balanced(net, k, owed)
    requires owed == owed' + (if q.Reply? then multiset{q.name} else multiset{})
    ensures Balanced(Queue(net, k, q), k, owed')
  {
    hide Data;
    StreamAppend(net.peers[k].log, q);
  }

  lemma QueueBalance(net: Net, k: Socket, q: Queued, s: Socket, owed: multiset<Blob>, owed': multiset<Blob>)
    requires Sound(net) && AllBalanced(net, s, owed) && k in net.peers
    requires if q.Reply? then k == s && owed == owed' + multiset{q.name} else owed == owed'
    ensures AllBalanced(Queue(net, k, q), s, owed')
  {
    if k == s {
      QueueBalanceOne(net, k, q, owed, owed');
    } else {
      QueueBalanceOne(net, k, q, multiset{}, multiset{});
    }
    hide Data, Balanced;
    UpdateBalance(net, Queue(net, k, q), k, s, owed, owed');
  }

  /** Queueing something that answers nothing. */
  lemma QueueOtherKeeps(net: Net, k: Socket, q: Queued, s: Socket, owed: multiset<Blob>)
    requires Owing(net, s, owed) && k in net.peers && !q.Reply?
    ensures Owing(Queue(net, k, q), s, owed)
  {
    QueuePeers(net, k, q);
    QueueBalance(net, k, q, s, owed, owed);
  }

  /** Queueing the reply that is owed. */
  lemma QueueReplyPays(net: Net, s: Socket, q: Queued)
    requires q.Reply? && AnswersItsName(q) && s in net.peers
    requires Owing(net, s, multiset{q.name})
    ensures Inv(Queue(net, s, q))
  {
    QueuePeers(net, s, q);
    QueueBalance(net, s, q, s, multiset{q.name}, multiset{});
    NothingOwed(Queue(net, s, q), s);
  }

  lemma RequestKeeps(net: Net, k: Socket, name: Blob, s: Socket, owed: multiset<Blob>)
    requires Owing(net, s, owed) && k in net.peers
    ensures Owing(RequestObjectData(net, k, name), s, owed)
  {
    QueueOtherKeeps(net, k, Request(name), s, owed);
  }

  /** Turning the request owed into a wait. */
  lemma AddWaitPays(net: Net, s: Socket, w: Wait)
    requires w.peer == s && s in net.peers && net.peers[s].waiting < MAX_PEER_WAITREQS
    requires Owing(net, s, multiset{w.name})
    ensures Inv(AddWait(net, s, w))
  {
    var r := AddWait(net, s, w);
    SoundQueues(net, r);
    hide WaitInv, OrdersInv, Answered, AllBalanced, OnlyQueues;
    assert PeerInv(r.peers[s]) by {
      assert PeerInv(net.peers[s]);
    }
    hide PeerInv;
    UpdatePeers(net, s, r.peers[s]);
    AddWaitBalance(net, s, w);
    NothingOwed(r, s);
  }

  lemma AddWaitBalance(net: Net, s: Socket, w: Wait)
    requires w.peer == s && s in net.peers && WaitInv(net) && AllBalanced(net, s, multiset{w.name})
    ensures AllBalanced(AddWait(net, s, w), s, multiset{})
  {
    hide WaitInv, Answered, OnlyQueues;
    var r := AddWait(net, s, w);
    assert r.waiting[..|r.waiting| - 1] == net.waiting;
    assert Balanced(net, s, multiset{w.name});
    UpdateBalance(net, r, s, s, multiset{w.name}, multiset{});
  }

  lemma DeferredPays(net: Net, s: Socket, name: Blob, owner: Socket, now: nat)
    requires s in net.peers && owner in net.peers && net.peers[s].waiting < MAX_PEER_WAITREQS
    requires Owing(net, s, multiset{name})
    ensures Inv(Deferred(net, s, name, owner, now))
  {
    RequestKeeps(net, owner, name, s, multiset{name});
    AddWaitPays(RequestObjectData(net, owner, name), s, Wait(now, name, [], s));
  }

  lemma ReleasedPeers(net: Net, i: nat, o: Option<Object>)
    requires WaitInv(net) && AllPeers(net) && i < |net.waiting|
    requires o.Some? ==> Names(net.waiting[i].name, o.value)
    ensures AllPeers(ReleaseOne(net, i, o))
  {
    hide Data;
    var w := net.waiting[i];
    EnqueueKeepsPeer(net.peers[w.peer], Reply(w.name, o));
    UpdatePeers(net, w.peer, ReleaseOne(net, i, o).peers[w.peer]);
  }

  lemma ReleasedBalanceOne(net: Net, i: nat, o: Option<Object>)
    requires WaitInv(net) && i < |net.waiting| && Balanced(net, net.waiting[i].peer, multiset{})
    ensures Balanced(ReleaseOne(net, i, o), net.waiting[i].peer, multiset{})
  {
    hide Data;
    var w := net.waiting[i];
    StreamAppend(net.peers[w.peer].log, Reply(w.name, o));
    WaitNamesWithout(net.waiting, i, w.peer);
  }

  lemma ReleasedOthers(net: Net, i: nat, o: Option<Object>)
    requires WaitInv(net) && i < |net.waiting|
    ensures var r := ReleaseOne(net, i, o);
      forall t | t in net.peers && t != net.waiting[i].peer ::
        r.peers[t] == net.peers[t] && WaitNames(r.waiting, t) == WaitNames(net.waiting, t)
  {
    hide Data;
    var r := ReleaseOne(net, i, o);
    forall t | t in net.peers && t != net.waiting[i].peer
      ensures r.peers[t] == net.peers[t] && WaitNames(r.waiting, t) == WaitNames(net.waiting, t)
    {
      WaitNamesWithout(net.waiting, i, t);
    }
  }

  lemma ReleasedBalance(net: Net, i: nat, o: Option<Object>)
    requires WaitInv(net) && AllBalanced(net, 0, multiset{}) && i < |net.waiting|
    ensures AllBalanced(ReleaseOne(net, i, o), 0, multiset{})
  {
    var k := net.waiting[i].peer;
    assert Balanced(net, k, if k == 0 then multiset{} else multiset{});
    ReleasedBalanceOne(net, i, o);
    ReleasedOthers(net, i, o);
    hide Data, Balanced, ReleaseOne;
    UpdateBalance(net, ReleaseOne(net, i, o), k, 0, multiset{}, multiset{});
  }

  lemma ReleaseOneKeeps(net: Net, i: nat, o: Option<Object>)
    requires Inv(net) && i < |net.waiting|
    requires o.Some? ==> Names(net.waiting[i].name, o.value)
    ensures Inv(ReleaseOne(net, i, o))
  {
    SoundQueues(net, ReleaseOne(net, i, o));
    ReleasedPeers(net, i, o);
    ReleasedBalance(net, i, o);
  }

  ghost predicate GoodVerdicts(verdict: Wait -> Verdict) {
    forall w :: verdict(w).Release? && verdict(w).obj.Some? ==> Names(w.name, verdict(w).obj.value)
  }

  lemma {:induction false} SweepKeeps(net: Net, i: nat, verdict: Wait -> Verdict)
    requires Inv(net) && i <= |net.waiting| && GoodVerdicts(verdict)
    ensures Inv(Sweep(net, i, verdict))
    decreases |net.waiting| - i
  {
    if i < |net.waiting| {
      match verdict(net.waiting[i])
      case Keep => SweepKeeps(net, i + 1, verdict);
      case Release(o) =>
        ReleaseOneKeeps(net, i, o);
        SweepKeeps(ReleaseOne(net, i, o), i, verdict);
    }
  }

  lemma ReleasedKeeps(net: Net, name: Blob, o: Option<Object>)
    requires Inv(net) && (o.Some? ==> Names(name, o.value))
    ensures Inv(Released(net, name, o))
  {
    SweepKeeps(net, 0, (w: Wait) => if w.name == name then Release(o) else Keep);
  }

  lemma OverdueKeeps(net: Net, now: nat, waitStale: nat)
    requires Inv(net)
    ensures Inv(ReleaseOverdue(net, now, waitStale))
  {
    var verdict := TimeoutVerdict(net, now - WAIT_MAX, now - waitStale);
    forall w | verdict(w).Release? && verdict(w).obj.Some?
      ensures Names(w.name, verdict(w).obj.value)
    {
      var s := FindOwner(net.peers, w.name).value;
      assert PeerInv(net.peers[s]);
    }
    hide AllPeers, AllBalanced, WaitInv, OrdersInv, TimeoutVerdict;
    SweepKeeps(net, 0, verdict);
  }

  lemma LosePeerKeeps(net: Net, s: Socket)
    requires Inv(net) && s in net.peers
    ensures Inv(LosePeer(net, s))
  {
    var r := LosePeer(net, s);
    forall t | t in r.peers
      ensures PeerInv(r.peers[t]) && Balanced(r, t, multiset{}) && OrderInv(r.peers[t])
    {
      assert Balanced(net, t, if t == 0 then multiset{} else multiset{});
      DropWaitsNames(net.waiting, s, t);
    }
  }

  // ----- messages

  /** Removing objects or changing their flags and request times. */
  lemma ReplaceObjectsKeeps(net: Net, s: Socket, p: Peer)
    requires Inv(net) && s in net.peers && OrderInv(p)
    requires p == net.peers[s].(objs := p.objs, order := p.order)
    requires forall n | n in p.objs :: n in net.peers[s].objs && Names(n, net.peers[s].objs[n]) ==> Names(n, p.objs[n])
    requires p.objs.Keys <= net.peers[s].objs.Keys
    ensures Inv(SetPeer(net, s, p))
  {
    assert PeerInv(net.peers[s]);
    SetPeerKeeps(net, s, p, s, multiset{});
  }

  lemma PurgedKeeps(net: Net, s: Socket)
    requires Inv(net) && s in net.peers
    ensures Inv(Purged(net, s))
  {
    RestrictOrder(net.peers[s], LiveNames(net.peers[s].objs));
    ReplaceObjectsKeeps(net, s, PurgeDeadObjects(net.peers[s]));
  }

  lemma ListBeginKeeps(net: Net, s: Socket, full: bool, now: nat)
    requires Inv(net) && s in net.peers
    ensures Inv(HandleListBegin(net, s, full, now))
  {
    assert OrderInv(net.peers[s]);
    if full {
      ReplaceObjectsKeeps(net, s, MarkObjectsDead(net.peers[s], now));
    }
  }

  lemma CountUpdateKeeps(net: Net, s: Socket)
    requires Inv(net) && s in net.peers
    ensures Inv(CountUpdate(net, s))
  {
    assert PeerInv(net.peers[s]) && OrderInv(net.peers[s]);
    SetPeerKeeps(net, s, Counted(net.peers[s]), 0, multiset{});
  }

  lemma ListEndKeeps(net: Net, s: Socket, full: bool)
    requires Inv(net) && s in net.peers
    ensures Inv(HandleListEnd(net, s, full))
  {
    var n := if full then Purged(net, s) else net;
    PurgedKeeps(net, s);
    FlaggedKeeps(n);
    CountUpdateKeeps(Flagged(n), s);
  }

  lemma FlaggedKeeps(net: Net)
    requires Inv(net)
    ensures Inv(Flagged(net))
  {
    FlagsKeep(net, Flagged(net));
  }

  lemma FlagsKeep(net: Net, r: Net)
    requires Inv(net) && r.peers == net.peers && r.waiting == net.waiting
    ensures Inv(r)
  {
    forall s | s in r.peers
      ensures Balanced(r, s, multiset{})
    {
      assert Balanced(net, s, if s == 0 then multiset{} else multiset{});
    }
  }

  lemma SourceKeeps(net: Net, s: Socket)
    requires Inv(net) && s in net.peers
    ensures OrderInv(net.peers[s])
    ensures Owing(SetPeer(net, s, AsSource(net.peers[s])), s, multiset{})
  {
    var p := net.peers[s];
    assert OrderInv(p) && PeerInv(p);
    assert PeerInv(AsSource(p));
    hide WaitInv, OrdersInv, OrderInv, PeerInv, AllPeers, AllBalanced;
    NothingOwed(net, s);
    SetPeerKeeps(net, s, AsSource(p), s, multiset{});
  }

  lemma ReceivedNames(net: Net, s: Socket, m: Message)
    requires AllPeers(net) && s in net.peers && m.ObjectReply?
    ensures Names(m.name, ReceivedObject(CachedOrFresh(net.peers[s], m.name), m))
  {
    assert PeerInv(net.peers[s]);
  }

  lemma ObjectKeeps(net: Net, s: Socket, m: Message)
    requires Inv(net) && s in net.peers && m.ObjectReply?
    ensures Inv(HandleObject(net, s, m))
  {
    SourceKeeps(net, s);
    hide Sound, OrderInv, AllPeers, AllBalanced, SetPeer, Cache, Requested, Released, PeerInv;
    var n0 := SetPeer(net, s, AsSource(net.peers[s]));
    var o := ReceivedObject(CachedOrFresh(n0.peers[s], m.name), m);
    ReceivedNames(n0, s, m);
    hide ReceivedObject, CachedOrFresh;
    CacheKeeps(n0, s, m.name, o, s, multiset{});
    var n1 := Cache(n0, s, m.name, o);
    RequestKeeps(n1, s, m.name, s, multiset{});
    var n2 := if o.lastreq > 0 && m.data == [] && !o.flags.IsScalar() then Requested(n1, s, m.name) else n1;
    ReleasedKeeps(n2, m.name, Some(o));
  }

  lemma NoneKeeps(net: Net, s: Socket, name: Blob)
    requires Inv(net) && s in net.peers
    ensures Inv(HandleNone(net, s, name))
  {
    assert OrderInv(net.peers[s]) && PeerInv(net.peers[s]);
    var p := net.peers[s].(source := true);
    SetPeerKeeps(net, s, p, s, multiset{});
    var n0 := SetPeer(net, s, p);
    if name in p.objs {
      var o := p.objs[name].(flags := p.objs[name].flags.(dead := true));
      CacheKeeps(n0, s, name, o, s, multiset{});
      PurgedKeeps(Cache(n0, s, name, o), s);
      ReleasedKeeps(Purged(Cache(n0, s, name, o), s), name, None);
    } else {
      ReleasedKeeps(n0, name, None);
    }
  }

  lemma AskBalance(net: Net, s: Socket, name: Blob)
    requires Sound(net) && AllBalanced(net, s, multiset{}) && s in net.peers
    ensures AllBalanced(Asked(net, s, name), s, multiset{name})
  {
    assert Balanced(net, s, multiset{});
    UpdateBalance(net, Asked(net, s, name), s, s, multiset{}, multiset{name});
  }

  lemma AskKeeps(net: Net, s: Socket, name: Blob)
    requires Inv(net) && s in net.peers
    ensures Owing(Asked(net, s, name), s, multiset{name})
  {
    NothingOwed(net, s);
    AskBalance(net, s, name);
    assert PeerInv(net.peers[s]);
    UpdatePeers(net, s, AskedBy(net.peers[s], name));
  }

  lemma AnswerKeeps(net: Net, s: Socket, name: Blob, k: Socket, now: nat)
    requires Owing(net, s, multiset{name})
    requires s in net.peers && k in net.peers && name in net.peers[k].objs
    requires net.peers[s].waiting < MAX_PEER_WAITREQS
    ensures var h := AnswerFrom(net, s, name, k, now);
      && (h.reply.None? ==> Inv(h.net))
      && (h.reply.Some? ==> Inv(Queue(h.net, s, h.reply.value)))
  {
    assert PeerInv(net.peers[k]);
    var o := net.peers[k].objs[name].(lastreq := now);
    var n1 := Cache(net, k, name, o);
    CacheKeeps(net, k, name, o, s, multiset{name});
    if (o.rawdata == [] || o.flags.stale) && !o.flags.IsScalar() {
      DeferredPays(n1, s, name, k, now);
    } else {
      QueueReplyPays(n1, s, Reply(name, Some(o)));
    }
  }

  /** Accepting a GET_OBJECT makes a debt that the same dispatch pays, by a
      reply or by a wait. */
  lemma GetKeeps(net: Net, s: Socket, name: Blob, now: nat)
    requires Inv(net) && s in net.peers && net.peers[s].waiting < MAX_PEER_WAITREQS
    ensures var h := HandleGet(net, s, name, now);
      && (h.reply.None? ==> Inv(h.net))
      && (h.reply.Some? ==> Inv(Queue(h.net, s, h.reply.value)))
  {
    AskKeeps(net, s, name);
    var n := Asked(net, s, name);
    match FindOwner(n.peers, name)
    case None => QueueReplyPays(n, s, Reply(name, None));
    case Some(k) => AnswerKeeps(n, s, name, k, now);
  }

  lemma UpdateMeKeeps(net: Net, s: Socket)
    requires Inv(net) && s in net.peers
    ensures OrderInv(net.peers[s]) && Inv(SetPeer(net, s, net.peers[s].(update := true)))
  {
    assert PeerInv(net.peers[s]);
    SetPeerKeeps(net, s, net.peers[s].(update := true), 0, multiset{});
  }

  lemma ListObjectsKeeps(net: Net, s: Socket)
    requires Inv(net) && s in net.peers
    ensures Inv(Queue(net, s, Listing(AllObjects(net))))
  {
    QueueOtherKeeps(net, s, Listing(AllObjects(net)), 0, multiset{});
  }

  lemma DispatchKeeps(net: Net, s: Socket, d: Blob, now: nat)
    requires Inv(net) && s in net.peers && |d| >= 8 && net.peers[s].waiting < MAX_PEER_WAITREQS
    ensures Inv(Dispatch(net, s, d, now))
  {
    hide HandleGet, HandleObject, HandleNone, HandleListBegin, HandleListEnd, SetPeer, Queue;
    hide Decode, Data, Owing, Inv, Sound, AllObjects;
    match Decode(d)
    case UpdateMe => UpdateMeKeeps(net, s);
    case ListObjects => ListObjectsKeeps(net, s);
    case GetObject(name) => GetKeeps(net, s, name, now);
    case ListBegin(full) => ListBeginKeeps(net, s, full, now);
    case ListEnd(full) => ListEndKeeps(net, s, full);
    case ObjectReply(_, _, _, _, _, _) => ObjectKeeps(net, s, Decode(d));
    case NoneReply(name) => NoneKeeps(net, s, name);
    case Corrupt =>
  }

  // ----- events

  lemma {:induction false} ProcessKeeps(net: Net, s: Socket, buf: Blob, clock: Clock, turn: nat)
    requires Inv(net) && s in net.peers
    ensures Inv(Process(net, s, buf, clock, turn).net)
    decreases |buf|
  {
    if |buf| >= 4 && net.peers[s].waiting < MAX_PEER_WAITREQS {
      var msglen := Word(buf, 0);
      if msglen >= MESSAGE_SIZE_LIMIT {
        LosePeerKeeps(net, s);
      } else if |buf| >= msglen {
        if msglen < 8 {
          LosePeerKeeps(net, s);
        } else {
          var n := Dispatch(net, s, buf[..msglen], clock(turn));
          DispatchKeeps(net, s, buf[..msglen], clock(turn));
          if Decode(buf[..msglen]).Corrupt? {
            LosePeerKeeps(n, s);
          } else {
            ProcessKeeps(n, s, buf[msglen..], clock, turn + 1);
          }
        }
      }
    }
  }

  lemma PeerChangeKeeps(net: Net, s: Socket, p: Peer)
    requires Inv(net) && s in net.peers
    requires p == net.peers[s].(incoming := p.incoming, mask := p.mask, updated := p.updated)
    ensures OrderInv(p) && Inv(SetPeer(net, s, p))
  {
    assert PeerInv(net.peers[s]) && OrderInv(net.peers[s]);
    SetPeerKeeps(net, s, p, 0, multiset{});
  }

  lemma ReceiveKeeps(net: Net, s: Socket, bytes: Blob, closed: bool, clock: Clock, turn: nat)
    requires Inv(net) && s in net.peers
    ensures Inv(Receive(net, s, bytes, closed, clock, turn))
  {
    PeerChangeKeeps(net, s, TakeInput(net.peers[s]));
    var n, buf := Opened(net, s), net.peers[s].incoming + bytes;
    ProcessKeeps(n, s, buf, clock, turn);
    match Process(n, s, buf, clock, turn)
    case Lost(_, _) =>
    case Kept(n', _, rest) => PeerChangeKeeps(n', s, PutBack(n'.peers[s], rest, closed));
  }

  /** updateMask closes a connected peer iff nothing is to be read, nothing is
      queued and nothing is awaited. */
  lemma UpdateMaskKeeps(net: Net, s: Socket)
    requires Inv(net) && s in net.peers
    ensures Inv(UpdateMask(net, s))
    ensures var p := net.peers[s];
      s !in UpdateMask(net, s).peers <==>
        p.connected && p.sendq == [] && WaitNames(net.waiting, s) == [] && !p.mask.read && p.mask.urgent
    ensures s in UpdateMask(net, s).peers && net.peers[s].connected ==>
      var p := UpdateMask(net, s).peers[s]; p.mask.write <==> p.sendq != []
  {
    var p := net.peers[s];
    PeerChangeKeeps(net, s, WithMask(p));
    if Closes(p) {
      LosePeerKeeps(SetPeer(net, s, WithMask(p)), s);
    }
  }

  lemma {:induction false} UpdateMasksKeeps(net: Net, ss: seq<Socket>)
    requires Inv(net)
    requires forall s | s in ss :: s in net.peers
    requires forall i, j | 0 <= i < j < |ss| :: ss[i] < ss[j]
    ensures Inv(UpdateMasks(net, ss))
    decreases |ss|
  {
    hide UpdateMask, AllPeers, AllBalanced, WaitInv, OrdersInv;
    if ss != [] {
      UpdateMaskKeeps(net, ss[0]);
      UpdateMasksKeeps(UpdateMask(net, ss[0]), ss[1..]);
    }
  }

  lemma ClearNewKeeps(net: Net)
    requires Inv(net)
    ensures Inv(ClearNewFlags(net))
  {
    var r := ClearNewFlags(net);
    forall s | s in r.peers
      ensures PeerInv(r.peers[s]) && Balanced(r, s, multiset{})
    {
      assert PeerInv(net.peers[s]) && Balanced(net, s, if s == 0 then multiset{} else multiset{});
    }
  }

  lemma SendListKeeps(net: Net, s: Socket, all: bool)
    requires Inv(net) && s in net.peers
    ensures Inv(SendList(net, s, all))
  {
    ClearNewKeeps(net);
    var q := ListFor(net.peers[s], AllObjects(net), all);
    var n := Queue(ClearNewFlags(net), s, q);
    QueueOtherKeeps(ClearNewFlags(net), s, q, 0, multiset{});
    PeerChangeKeeps(n, s, Updated(n.peers[s]));
  }

  lemma {:induction false} SendListToPeersKeeps(net: Net, ss: seq<Socket>, all: bool)
    requires Inv(net)
    requires forall s | s in ss :: s in net.peers
    ensures Inv(SendListToPeers(net, ss, all))
    decreases |ss|
  {
    hide AllPeers, AllBalanced, WaitInv, OrdersInv, SendList;
    if ss != [] {
      SendListKeeps(net, ss[0], all);
      SendListToPeersKeeps(if net.peers[ss[0]].update then SendList(net, ss[0], all) else net, ss[1..], all);
    }
  }

  lemma TickKeeps(net: Net, now: nat, waitStale: nat)
    requires Inv(net)
    ensures Inv(Tick(net, now, waitStale))
  {
    hide AllPeers, AllBalanced, WaitInv, OrdersInv, SendListToPeers, UpdateMasks, ReleaseOverdue, SortedKeys;
    FlagsKeep(net, StartFlush(net, now));
    SendListToPeersKeeps(StartFlush(net, now), SortedKeys(net.peers.Keys), true);
    var n := FlushIfDue(net, now);
    UpdateMasksKeeps(n, SortedKeys(n.peers.Keys));
    OverdueKeeps(UpdateMasks(n, SortedKeys(n.peers.Keys)), now, waitStale);
  }

  lemma AddPeerKeeps(net: Net, s: Socket, p: Peer)
    requires Inv(net) && s !in net.peers && p.waiting == 0 && OrderInv(p) && PeerInv(p)
    requires p.asked == [] && Answered(p.log) == []
    ensures Inv(AddPeer(net, s, p))
  {
    NoWaitsForUnknown(net, s);
    var r := AddPeer(net, s, p);
    forall t | t in r.peers
      ensures Balanced(r, t, multiset{})
    {
      assert t != s ==> Balanced(net, t, if t == 0 then multiset{} else multiset{});
    }
  }

  lemma NewPeerInv()
    ensures PeerInv(NewPeer) && OrderInv(NewPeer) && PeerInv(AcceptedPeer) && OrderInv(AcceptedPeer)
  {
    assert Flatten([]) == [] && Stream([]) == [];
  }

  lemma DialledPeerInv(upstream: bool)
    ensures PeerInv(DialledPeer(upstream)) && OrderInv(DialledPeer(upstream))
    ensures var p := DialledPeer(upstream); p.waiting == 0 && p.asked == [] && Answered(p.log) == []
  {
    NewPeerInv();
    var p := NewPeer.(connected := true, mask := Mask(true, true, true), update := !upstream);
    EnqueueKeepsPeer(p, Hello);
  }

  lemma LocalKeeps(net: Net, o: Object)
    requires Inv(net) && LOCAL in net.peers && SLASH !in o.objname
    ensures Inv(UpdateLocal(net, o))
  {
    SplitJoin(o.dirname, o.objname);
    CacheKeeps(net, LOCAL, FullName(o), AsLocal(net.peers[LOCAL].objs, o), 0, multiset{});
  }

  lemma OnlyLocalKeeps(net: Net, known: set<Blob>)
    requires Inv(net) && LOCAL in net.peers
    ensures Inv(RemoveLocalExcept(net, known))
  {
    var p := net.peers[LOCAL];
    RestrictOrder(p, KnownNames(p.objs, known));
    ReplaceObjectsKeeps(net, LOCAL, Restrict(p, KnownNames(p.objs, known)));
  }

  lemma WriteToKeeps(net: Net, s: Socket, accepts: seq<nat>)
    requires Inv(net) && s in net.peers
    ensures Inv(WriteTo(net, s, accepts))
  {
    var p := net.peers[s];
    assert PeerInv(p) && OrderInv(p);
    WriteKeeps(p, accepts);
    WriteCarries(p, accepts, Stream(p.log));
    SetPeerKeeps(net, s, Write(p, accepts), 0, multiset{});
  }

  /** Every event keeps the invariant. */
  lemma StepKeeps(net: Net, e: Event)
    requires Inv(net) && Enabled(net, e)
    ensures Inv(Step(net, e))
  {
    hide AllPeers, AllBalanced, WaitInv, OrdersInv;
    hide Receive, WriteTo, LosePeer, Flagged, UpdateLocal, RemoveLocalExcept, Tick, AddPeer, DialledPeer;
    NewPeerInv();
    match e
    case Accept(s) => AddPeerKeeps(net, s, AcceptedPeer);
    case Dial(s, upstream) =>
      DialledPeerInv(upstream);
      AddPeerKeeps(net, s, DialledPeer(upstream));
    case Readable(s, bytes, closed, clock) => ReceiveKeeps(net, s, bytes, closed, clock, 0);
    case Writable(s, accepts) => WriteToKeeps(net, s, accepts);
    case Fail(s) => LosePeerKeeps(net, s);
    case Notified => FlagsKeep(net, Flagged(net).(wakeup := false));
    case LocalChange => FlagsKeep(net, net.(wakeup := true));
    case NewLocal(o) => LocalKeeps(net, o);
    case OnlyLocal(known) => OnlyLocalKeeps(net, known);
    case Loop(now, waitStale) => TickKeeps(net, now, waitStale);
  }

  lemma InitialInv()
    ensures Inv(InitialNet)
  {
    NewPeerInv();
  }

  lemma {:induction false} RunKeeps(net: Net, es: seq<Event>)
    requires Inv(net)
    ensures Inv(RunFrom(net, es))
  {
    if es != [] {
      var n := RunFrom(net, es[..|es| - 1]);
      RunKeeps(net, es[..|es| - 1]);
      if Enabled(n, es[|es| - 1]) {
        StepKeeps(n, es[|es| - 1]);
      }
    }
  }

  /** Safety over whole runs: the invariant holds in every reachable state. */
  lemma Reachable(es: seq<Event>)
    ensures Inv(Run(es))
  {
    InitialInv();
    hide Inv, InitialNet, RunFrom;
    RunKeeps(InitialNet, es);
  }

  /** What that says of one peer after any run. No wait entry names a lost peer;
      the counter of waits is exact and within the limit; bytes written and
      bytes pending are the bytes queued; and every request accepted was
      answered once or is still waiting, under its own name. */
  lemma PeerAccounts(es: seq<Event>, s: Socket)
    ensures forall i | 0 <= i < |Run(es).waiting| :: Run(es).waiting[i].peer in Run(es).peers
    ensures s in Run(es).peers ==>
      var net := Run(es);
      var p := net.peers[s];
      && p.waiting == |WaitNames(net.waiting, s)| <= MAX_PEER_WAITREQS
      && p.written + Pending(p.sendq, p.sendpos) == Stream(p.log)
      && multiset(p.asked) == multiset(Answered(p.log)) + multiset(WaitNames(net.waiting, s))
      && (forall i | 0 <= i < |p.log| :: AnswersItsName(p.log[i]))
  {
    Reachable(es);
    if s in Run(es).peers {
      assert PeerInv(Run(es).peers[s]);
      assert Balanced(Run(es), s, if s == 0 then multiset{} else multiset{});
    }
  }

  /** The name a message carries. */
  function CarriedName(m: Message): Option<Blob> {
    match m
    case ObjectReply(_, _, _, name, _, _) => Some(name)
    case NoneReply(name) => Some(name)
    case _ => None
  }

  /** The bytes of a reply carry the name asked for, except that an object whose
      name has its last slash at the front loses that slash. */
  lemma ReplyCarriesName(q: Queued)
    requires q.Reply? && AnswersItsName(q) && |Data(q)| < MESSAGE_SIZE_LIMIT
    ensures Framed(Data(q)) && |Data(q)| >= 8
    ensures CarriedName(Decode(Data(q))) == Some(q.name) <==> q.obj.None? || AfterSlash(q.name) != 1
    ensures q.obj.Some? && AfterSlash(q.name) == 1 ==> CarriedName(Decode(Data(q))) == Some(q.name[1..])
  {
    hide EncodeObject, Decode;
    match q.obj
    case None => DecodeEncodeNone(q.name);
    case Some(o) =>
      DecodeEncodeObject(o, true);
      AdvertisedNameIff(q.name);
      if AfterSlash(q.name) == 1 {
        FrontSlash(q.name);
      }
  }

  lemma FrontSlash(name: Blob)
    requires AfterSlash(name) == 1
    ensures Join(DirOf(name), BaseOf(name)) == name[1..]
  {
  }
}
