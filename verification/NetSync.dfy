/** A full object list brings the receiver's cache in line with the sender. */
module NetSync {
  import opened Bytes
  import opened Wire
  import opened Messages
  import opened Options
  import opened NetState
  import opened NetSteps
  import opened NetFraming

  // ----- single messages in the byte stream

  /** A complete message at the head of the input is dispatched. */
  lemma ProcessFrame(net: Net, s: Socket, frame: Blob, tail: Blob, clock: Clock, turn: nat)
    requires Sound(net) && s in net.peers && net.peers[s].waiting < MAX_PEER_WAITREQS
    requires Framed(frame) && !Decode(frame).Corrupt?
    ensures Process(net, s, frame + tail, clock, turn) ==
      Prepend([frame], Process(Dispatch(net, s, frame, clock(turn)), s, tail, clock, turn + 1))
  {
    hide Process, Dispatch, Decode, WaitInv, OrdersInv;
    var buf := frame + tail;
    assert buf[0..4] == frame[0..4];
    assert buf[..|frame|] == frame && buf[|frame|..] == tail;
    ProcessHead(net, s, buf, clock, turn);
  }

  /** An incomplete message stays in the input. */
  lemma ProcessPartial(net: Net, s: Socket, frame: Blob, i: nat, clock: Clock, turn: nat)
    requires Sound(net) && s in net.peers && Framed(frame) && i < |frame|
    ensures Process(net, s, frame[..i], clock, turn) == Kept(net, [], frame[..i])
  {
    hide Dispatch, Decode, WaitInv, OrdersInv, LosePeer;
    if i >= 4 {
      assert frame[..i][0..4] == frame[0..4];
    }
  }

  // ----- what a message does to the caches

  /** All caches but that of s are as before, and s waits for no more than before. */
  ghost predicate OthersKept(net: Net, r: Net, s: Socket) {
    && r.peers.Keys == net.peers.Keys && s in net.peers
    && r.peers[s].waiting <= net.peers[s].waiting
    && forall t | t in net.peers && t != s :: r.peers[t].objs == net.peers[t].objs
  }

  lemma {:induction false} SweepWaitsLess(net: Net, i: nat, verdict: Wait -> Verdict, s: Socket)
    requires WaitInv(net) && i <= |net.waiting| && s in net.peers
    ensures Sweep(net, i, verdict).peers[s].waiting <= net.peers[s].waiting
    decreases |net.waiting| - i
  {
    hide Data;
    if i < |net.waiting| {
      match verdict(net.waiting[i])
      case Keep => SweepWaitsLess(net, i + 1, verdict, s);
      case Release(o) => SweepWaitsLess(ReleaseOne(net, i, o), i, verdict, s);
    }
  }

  lemma ReleasedCaches(net: Net, name: Blob, o: Option<Object>, s: Socket)
    requires Sound(net) && s in net.peers
    ensures var r := Released(net, name, o);
      OthersKept(net, r, s) && r.peers[s].objs == net.peers[s].objs
  {
    SweepWaitsLess(net, 0, (w: Wait) => if w.name == name then Release(o) else Keep, s);
    hide WaitInv, OrdersInv, Sweep;
    assert OnlyQueues(net, ReleaseWaiters(net, name, o));
  }

  lemma RequestedCaches(net: Net, s: Socket, name: Blob)
    requires Sound(net) && s in net.peers
    ensures var r := Requested(net, s, name);
      OthersKept(net, r, s) && r.peers[s].objs == net.peers[s].objs
  {
    hide Data, WaitInv, OrdersInv;
  }

  lemma SetCaches(net: Net, s: Socket, p: Peer)
    requires Sound(net) && s in net.peers && OrderInv(p) && p.waiting == net.peers[s].waiting
    ensures var r := SetPeer(net, s, p); OthersKept(net, r, s) && r.peers[s] == p
  {
  }

  lemma CacheCaches(net: Net, s: Socket, name: Blob, o: Object)
    requires Sound(net) && s in net.peers
    ensures var r := Cache(net, s, name, o);
      OthersKept(net, r, s) && r.peers[s].objs == net.peers[s].objs[name := o]
  {
    PutObjectOrder(net.peers[s], name, o);
    SetCaches(net, s, PutObject(net.peers[s], name, o));
  }

  lemma SourceCaches(net: Net, s: Socket)
    requires Sound(net) && s in net.peers
    ensures OrderInv(net.peers[s])
    ensures var r := SetPeer(net, s, AsSource(net.peers[s]));
      OthersKept(net, r, s) && r.peers[s] == AsSource(net.peers[s])
  {
    assert OrderInv(net.peers[s]);
    SetCaches(net, s, AsSource(net.peers[s]));
  }

  lemma OthersTransitive(a: Net, b: Net, c: Net, s: Socket)
    requires OthersKept(a, b, s) && OthersKept(b, c, s)
    ensures OthersKept(a, c, s)
  {
  }

  lemma ObjectCaches(net: Net, s: Socket, m: Message)
    requires Sound(net) && s in net.peers && m.ObjectReply?
    ensures var r := HandleObject(net, s, m);
      && OthersKept(net, r, s)
      && r.peers[s].objs == net.peers[s].objs[m.name := ReceivedObject(CachedOrFresh(net.peers[s], m.name), m)]
  {
    SourceCaches(net, s);
    var n0 := SetPeer(net, s, AsSource(net.peers[s]));
    assert CachedOrFresh(n0.peers[s], m.name) == CachedOrFresh(net.peers[s], m.name);
    hide WaitInv, OrdersInv, SetPeer, Cache, Released, Requested, ReceivedObject, CachedOrFresh;
    var o := ReceivedObject(CachedOrFresh(n0.peers[s], m.name), m);
    var n1 := Cache(n0, s, m.name, o);
    CacheCaches(n0, s, m.name, o);
    OthersTransitive(net, n0, n1, s);
    RequestedCaches(n1, s, m.name);
    OthersTransitive(net, n1, Requested(n1, s, m.name), s);
    var n2 := if o.lastreq > 0 && m.data == [] && !o.flags.IsScalar() then Requested(n1, s, m.name) else n1;
    ReleasedCaches(n2, m.name, Some(o), s);
    OthersTransitive(net, n2, Released(n2, m.name, Some(o)), s);
  }

  function ObjectMessage(o: Object): (m: Message)
    ensures m.ObjectReply?
  {
    ObjectReply(o.flags.(dead := false), o.version, o.tag, FullName(o), SentData(o, o.lastreq > 0), o.qdata)
  }

  lemma DispatchIsHandleObject(net: Net, s: Socket, d: Blob, now: nat)
    requires Sound(net) && s in net.peers && |d| >= 8 && Decode(d).ObjectReply?
    ensures Dispatch(net, s, d, now) == HandleObject(net, s, Decode(d))
  {
    hide WaitInv, OrdersInv, HandleObject, Decode;
  }

  lemma DispatchObject(net: Net, s: Socket, o: Object, now: nat)
    requires Sound(net) && s in net.peers && |EncodeObject(o, o.lastreq > 0)| < MESSAGE_SIZE_LIMIT
    ensures Framed(EncodeObject(o, o.lastreq > 0)) && Decode(EncodeObject(o, o.lastreq > 0)) == ObjectMessage(o)
    ensures var r := Dispatch(net, s, EncodeObject(o, o.lastreq > 0), now);
      && OthersKept(net, r, s)
      && r.peers[s].objs == net.peers[s].objs[FullName(o) :=
           ReceivedObject(CachedOrFresh(net.peers[s], FullName(o)), ObjectMessage(o))]
  {
    hide Dispatch, Sound, HandleObject, ReceivedObject, CachedOrFresh, EncodeObject, Decode, OthersKept;
    DecodeEncodeObject(o, o.lastreq > 0);
    DispatchIsHandleObject(net, s, EncodeObject(o, o.lastreq > 0), now);
    ObjectCaches(net, s, ObjectMessage(o));
  }

  /** An OBJECT message without data for a histogram. */
  function Summary(name: Blob): Blob {
    EncodeObject(Object(Flags(0x10, false, false, false, false, false, 0), 0, 0, [], name, 0, [], [], []), false)
  }

  lemma SummaryDecoded(name: Blob)
    requires 36 + |name| < MESSAGE_SIZE_LIMIT
    ensures Framed(Summary(name)) && |Summary(name)| == 36 + |name|
    ensures Decode(Summary(name)) == ObjectReply(Flags(0x10, false, false, false, false, false, 0), 0, 0, name, [], [])
  {
    hide Decode;
    DecodeEncodeObject(
      Object(Flags(0x10, false, false, false, false, false, 0), 0, 0, [], name, 0, [], [], []), false);
    hide EncodeObject, Framed;
  }

  function MarkedDead(objs: map<Blob, Object>, now: nat): map<Blob, Object> {
    map n | n in objs ::
      var old_ := objs[n].lastreq;
      objs[n].(lastreq := if 0 < old_ < now - 300_000_000_000 then 0 else old_,
               flags := objs[n].flags.(dead := true))
  }

  lemma MarkedIs(p: Peer, now: nat)
    ensures MarkObjectsDead(p, now) == p.(objs := MarkedDead(p.objs, now))
    ensures MarkedDead(p.objs, now).Keys == p.objs.Keys
    ensures forall n | n in p.objs :: MarkedDead(p.objs, now)[n] == MarkDead(p.objs[n], now)
  {
  }

  lemma MarkedOrder(net: Net, s: Socket, now: nat)
    requires Sound(net) && s in net.peers
    ensures OrderInv(net.peers[s]) && OrderInv(MarkObjectsDead(net.peers[s], now))
  {
  }

  lemma DispatchBegin(net: Net, s: Socket, n: nat, now: nat)
    requires Sound(net) && s in net.peers
    ensures Framed(EncodeListBegin(n, true)) && Decode(EncodeListBegin(n, true)) == ListBegin(true)
    ensures var r := Dispatch(net, s, EncodeListBegin(n, true), now);
      OthersKept(net, r, s) && r.peers[s].objs == MarkedDead(net.peers[s].objs, now)
  {
    hide EncodeListBegin, EncodeListEnd, Decode, WaitInv, OrdersInv, OrderInv;
    DecodeEncodeList(n, true);
    MarkedOrder(net, s, now);
    var p := net.peers[s];
    SetCaches(net, s, MarkObjectsDead(p, now));
  }

  function Alive(objs: map<Blob, Object>): map<Blob, Object> {
    map n | n in objs && !objs[n].flags.dead :: objs[n]
  }

  lemma PurgedCaches(net: Net, s: Socket)
    requires Sound(net) && s in net.peers
    ensures var r := Purged(net, s);
      OthersKept(net, r, s) && r.peers[s].objs == Alive(net.peers[s].objs)
  {
    RestrictOrder(net.peers[s], LiveNames(net.peers[s].objs));
    hide WaitInv, OrdersInv, OrderInv;
    SetCaches(net, s, PurgeDeadObjects(net.peers[s]));
  }

  lemma CountedCaches(net: Net, s: Socket)
    requires Sound(net) && s in net.peers
    ensures var r := CountUpdate(net, s); OthersKept(net, r, s) && r.peers[s].objs == net.peers[s].objs
  {
    assert OrderInv(net.peers[s]);
    SetCaches(net, s, Counted(net.peers[s]));
  }

  lemma DispatchEnd(net: Net, s: Socket, n: nat, now: nat)
    requires Sound(net) && s in net.peers
    ensures Framed(EncodeListEnd(n, true)) && Decode(EncodeListEnd(n, true)) == ListEnd(true)
    ensures var r := Dispatch(net, s, EncodeListEnd(n, true), now);
      && OthersKept(net, r, s)
      && r.peers[s].objs == Alive(net.peers[s].objs)
  {
    DecodeEncodeList(n, true);
    hide EncodeListEnd, Decode, Framed, WaitInv, OrdersInv, Purged, CountUpdate;
    PurgedCaches(net, s);
    CountedCaches(Flagged(Purged(net, s)), s);
  }

  // ----- the cache while a list comes in

  function NamesOf(objs: seq<Object>): set<Blob> {
    set o | o in objs :: FullName(o)
  }

  /** The last object of that name in the list. */
  function LastNamed(objs: seq<Object>, name: Blob): (o: Object)
    requires name in NamesOf(objs)
    ensures o in objs && FullName(o) == name
  {
    if FullName(objs[|objs| - 1]) == name then objs[|objs| - 1]
    else LastNamed(objs[..|objs| - 1], name)
  }

  /** The cache entry tells what the sender's object said last; it is marked
      new for certain if there is a reason to be. */
  predicate Tells(got: Object, sent: Object, marked: bool) {
    && got.tag == sent.tag && got.version == sent.version && got.qdata == sent.qdata
    && got.flags.(stale := sent.flags.stale, isNew := true) ==
       sent.flags.(dead := false, isNew := true, received := true)
    && (marked ==> got.flags.isNew)
    && (sent.flags.IsScalar() ==> got.scalar == sent.scalar && got.rawdata == [])
    && (!sent.flags.IsScalar() ==> got.scalar == [])
    && (!sent.flags.IsScalar() && sent.lastreq > 0 && sent.rawdata != [] ==> got.rawdata == sent.rawdata)
  }

  lemma ReceivedTells(cached: Object, o: Object)
    ensures Tells(ReceivedObject(cached, ObjectMessage(o)), o, true)
    ensures var got := ReceivedObject(cached, ObjectMessage(o));
      var summary := !o.flags.IsScalar() && SentData(o, o.lastreq > 0) == [];
      && (summary ==> got.rawdata == cached.rawdata)
      && (got.flags.stale <==> o.flags.stale || (summary && cached.rawdata != []))
    ensures !ReceivedObject(cached, ObjectMessage(o)).flags.dead
  {
  }

  /** After the list's first objects, done: nothing held before is gone, and
      what is not dead is what was advertised, with what was told last. */
  ghost predicate Syncing(cache: map<Blob, Object>, before: set<Blob>, done: seq<Object>, marked: bool) {
    && cache.Keys == before + NamesOf(done)
    && (forall n | n in cache :: cache[n].flags.dead <==> n !in NamesOf(done))
    && (forall n | n in NamesOf(done) :: Tells(cache[n], LastNamed(done, n), marked))
  }

  /** The cache holds exactly the names advertised, all alive, each with what
      was told last under that name. */
  ghost predicate Synced(cache: map<Blob, Object>, objs: seq<Object>, marked: bool) {
    && cache.Keys == NamesOf(objs)
    && (forall n | n in cache :: !cache[n].flags.dead)
    && (forall n | n in cache :: Tells(cache[n], LastNamed(objs, n), marked))
  }

  /** The cache when the first k messages of the list have been handled. */
  ghost predicate InList(cache: map<Blob, Object>, before: set<Blob>, objs: seq<Object>, k: nat, marked: bool)
    requires k <= |objs| + 2
  {
    if k == 0 then cache.Keys == before
    else if k <= |objs| + 1 then Syncing(cache, before, objs[..k - 1], marked)
    else Synced(cache, objs, marked)
  }

  lemma NamesOfAppend(done: seq<Object>, o: Object)
    ensures NamesOf(done + [o]) == NamesOf(done) + {FullName(o)}
  {
    assert forall x :: x in done + [o] <==> x in done || x == o;
    hide FullName;
  }

  lemma LastNamedAppend(done: seq<Object>, o: Object, n: Blob)
    requires n in NamesOf(done + [o])
    ensures n == FullName(o) || n in NamesOf(done)
    ensures LastNamed(done + [o], n) == if n == FullName(o) then o else LastNamed(done, n)
  {
    NamesOfAppend(done, o);
    assert (done + [o])[..|done|] == done;
    hide FullName, NamesOf;
  }

  lemma SyncOne(cache: map<Blob, Object>, before: set<Blob>, done: seq<Object>, o: Object, got: Object, marked: bool)
    requires Syncing(cache, before, done, marked) && Tells(got, o, marked) && !got.flags.dead
    ensures Syncing(cache[FullName(o) := got], before, done + [o], marked)
  {
    hide Tells, LastNamed, FullName, NamesOf;
    NamesOfAppend(done, o);
    var r := cache[FullName(o) := got];
    assert r.Keys == before + NamesOf(done + [o]);
    forall n | n in NamesOf(done + [o])
      ensures Tells(r[n], LastNamed(done + [o], n), marked)
    {
      LastNamedAppend(done, o, n);
    }
  }

  lemma PurgeSynced(cache: map<Blob, Object>, before: set<Blob>, objs: seq<Object>, marked: bool)
    requires Syncing(cache, before, objs, marked)
    ensures Synced(Alive(cache), objs, marked)
  {
    hide Tells, LastNamed, NamesOf;
    var r := Alive(cache);
    assert forall n :: n in r <==> n in NamesOf(objs);
    assert r.Keys == NamesOf(objs);
  }

  // ----- the messages of a list

  function Frames(objs: seq<Object>): seq<Blob> {
    seq(|objs|, i requires 0 <= i < |objs| => EncodeObject(objs[i], objs[i].lastreq > 0))
  }

  function ListFrames(objs: seq<Object>): (f: seq<Blob>)
    ensures |f| == |objs| + 2
  {
    [EncodeListBegin(|objs|, true)] + Frames(objs) + [EncodeListEnd(|objs|, true)]
  }

  /** Messages i to k of a list. */
  function Part(objs: seq<Object>, i: nat, k: nat): (f: seq<Blob>)
    requires i <= k <= |objs| + 2
    ensures |f| == k - i
  {
    ListFrames(objs)[i..k]
  }

  predicate Sendable(objs: seq<Object>) {
    forall o | o in objs :: |EncodeObject(o, o.lastreq > 0)| < MESSAGE_SIZE_LIMIT
  }

  lemma {:induction false} FlattenLast(frames: seq<Blob>)
    requires frames != []
    ensures Flatten(frames) == Flatten(frames[..|frames| - 1]) + frames[|frames| - 1]
  {
    if |frames| > 1 {
      FlattenLast(frames[1..]);
      assert frames[1..][..|frames| - 2] == frames[..|frames| - 1][1..];
    }
  }

  lemma FlattenMore(frames: seq<Blob>, d: Blob)
    ensures Flatten(frames + [d]) == Flatten(frames) + d
  {
    FlattenLast(frames + [d]);
    assert (frames + [d])[..|frames|] == frames;
  }

  lemma FrameWhole(objs: seq<Object>, i: nat)
    requires Sendable(objs) && i < |ListFrames(objs)|
    ensures var d := ListFrames(objs)[i]; Framed(d) && |d| >= 8 && !Decode(d).Corrupt?
  {
    hide Decode, EncodeListBegin, EncodeListEnd, EncodeObject;
    if 1 <= i <= |objs| {
      assert ListFrames(objs)[i] == EncodeObject(objs[i - 1], objs[i - 1].lastreq > 0);
      DecodeEncodeObject(objs[i - 1], objs[i - 1].lastreq > 0);
    } else {
      DecodeEncodeList(|objs|, true);
    }
  }

  lemma {:induction false} FlattenFrames(objs: seq<Object>)
    ensures Flatten(Frames(objs)) == ObjectFrames(objs)
  {
    hide EncodeObject;
    if objs != [] {
      FlattenFrames(objs[..|objs| - 1]);
      FlattenLast(Frames(objs));
      hide Flatten;
      assert Frames(objs)[..|objs| - 1] == Frames(objs[..|objs| - 1]);
    }
  }

  lemma FlattenListFrames(objs: seq<Object>)
    ensures Flatten(ListFrames(objs)) == ListBytes(objs)
  {
    hide EncodeListBegin, EncodeListEnd, EncodeObject, ObjectFrames;
    var f := ListFrames(objs);
    FlattenFrames(objs);
    FlattenLast(f);
    assert f[..|f| - 1] == [EncodeListBegin(|objs|, true)] + Frames(objs);
    assert f[..|f| - 1][1..] == Frames(objs);
  }

  // ----- one message of a list

  lemma SyncBegin(net: Net, s: Socket, n: nat, now: nat, marked: bool)
    requires Sound(net) && s in net.peers
    ensures |EncodeListBegin(n, true)| >= 8
    ensures var r := Dispatch(net, s, EncodeListBegin(n, true), now);
      OthersKept(net, r, s) && Syncing(r.peers[s].objs, net.peers[s].objs.Keys, [], marked)
  {
    DispatchBegin(net, s, n, now);
  }

  lemma SyncObject(net: Net, s: Socket, before: set<Blob>, done: seq<Object>, o: Object, now: nat, marked: bool)
    requires Sound(net) && s in net.peers && |EncodeObject(o, o.lastreq > 0)| < MESSAGE_SIZE_LIMIT
    requires Syncing(net.peers[s].objs, before, done, marked)
    ensures var r := Dispatch(net, s, EncodeObject(o, o.lastreq > 0), now);
      OthersKept(net, r, s) && Syncing(r.peers[s].objs, before, done + [o], marked)
  {
    hide Dispatch, Sound, EncodeObject, Decode, Syncing, ReceivedObject, OthersKept, CachedOrFresh, FullName, Tells;
    hide ObjectMessage;
    DispatchObject(net, s, o, now);
    var cached := CachedOrFresh(net.peers[s], FullName(o));
    ToldIsKnown(cached, o, marked);
    SyncOne(net.peers[s].objs, before, done, o, ReceivedObject(cached, ObjectMessage(o)), marked);
  }

  lemma ToldIsKnown(cached: Object, o: Object, marked: bool)
    ensures var got := ReceivedObject(cached, ObjectMessage(o)); Tells(got, o, marked) && !got.flags.dead
  {
    ReceivedTells(cached, o);
  }

  lemma SyncEnd(net: Net, s: Socket, before: set<Blob>, objs: seq<Object>, n: nat, now: nat, marked: bool)
    requires Sound(net) && s in net.peers && Syncing(net.peers[s].objs, before, objs, marked)
    ensures |EncodeListEnd(n, true)| >= 8
    ensures var r := Dispatch(net, s, EncodeListEnd(n, true), now);
      OthersKept(net, r, s) && Synced(r.peers[s].objs, objs, marked)
  {
    hide Dispatch, Sound, EncodeListEnd, Decode, Syncing, Synced, OthersKept;
    DispatchEnd(net, s, n, now);
    PurgeSynced(net.peers[s].objs, before, objs, marked);
  }

  lemma FrameAt(objs: seq<Object>, k: nat)
    requires k < |objs| + 2
    ensures ListFrames(objs)[k] ==
      if k == 0 then EncodeListBegin(|objs|, true)
      else if k <= |objs| then EncodeObject(objs[k - 1], objs[k - 1].lastreq > 0)
      else EncodeListEnd(|objs|, true)
  {
    hide EncodeObject, EncodeListBegin, EncodeListEnd;
  }

  /** The list's next message. */
  lemma ListNext(net: Net, s: Socket, before: set<Blob>, objs: seq<Object>, k: nat, now: nat, marked: bool)
    requires Sound(net) && s in net.peers && Sendable(objs) && k < |objs| + 2
    requires InList(net.peers[s].objs, before, objs, k, marked)
    ensures var d := ListFrames(objs)[k];
      && |d| >= 8
      && var r := Dispatch(net, s, d, now);
         OthersKept(net, r, s) && InList(r.peers[s].objs, before, objs, k + 1, marked)
  {
    hide Dispatch, Sound, EncodeObject, EncodeListBegin, EncodeListEnd, Syncing, Synced, OthersKept, ListFrames;
    FrameAt(objs, k);
    if k == 0 {
      SyncBegin(net, s, |objs|, now, marked);
      assert objs[..0] == [];
    } else if k <= |objs| {
      assert objs[..k] == objs[..k - 1] + [objs[k - 1]];
      SyncObject(net, s, before, objs[..k - 1], objs[k - 1], now, marked);
    } else {
      assert objs[..|objs|] == objs;
      SyncEnd(net, s, before, objs, |objs|, now, marked);
    }
  }

  // ----- messages one after the other

  ghost predicate AllLong(frames: seq<Blob>) {
    forall i | 0 <= i < |frames| :: |frames[i]| >= 8
  }

  /** The state after a series of messages. */
  ghost function DispatchAll(net: Net, s: Socket, frames: seq<Blob>, clock: Clock, turn: nat): (r: Net)
    requires Sound(net) && s in net.peers
    requires AllLong(frames)
    ensures Sound(r) && r.peers.Keys == net.peers.Keys
  {
    if frames == [] then net
    else
      var init := |frames| - 1;
      Dispatch(DispatchAll(net, s, frames[..init], clock, turn), s, frames[init], clock(turn + init))
  }

  lemma ListLong(objs: seq<Object>, i: nat, k: nat)
    requires Sendable(objs) && i <= k <= |objs| + 2
    ensures AllLong(Part(objs, i, k))
  {
    hide ListFrames, Decode, Framed;
    forall j | i <= j < k
      ensures |ListFrames(objs)[j]| >= 8
    {
      FrameWhole(objs, j);
    }
  }

  lemma DispatchNone(net: Net, s: Socket, clock: Clock, turn: nat)
    requires Sound(net) && s in net.peers
    ensures DispatchAll(net, s, [], clock, turn) == net && OthersKept(net, net, s)
  {
  }

  lemma PartMore(objs: seq<Object>, i: nat, k: nat)
    requires i <= k < |objs| + 2
    ensures Part(objs, i, k + 1) == Part(objs, i, k) + [ListFrames(objs)[k]]
  {
    hide ListFrames;
  }

  lemma PartNone(objs: seq<Object>, i: nat)
    requires i <= |objs| + 2
    ensures Part(objs, i, i) == []
  {
    hide ListFrames;
  }

  lemma DispatchMore(net: Net, s: Socket, frames: seq<Blob>, d: Blob, clock: Clock, turn: nat)
    requires Sound(net) && s in net.peers && AllLong(frames) && |d| >= 8
    ensures AllLong(frames + [d])
    ensures DispatchAll(net, s, frames + [d], clock, turn) ==
      Dispatch(DispatchAll(net, s, frames, clock, turn), s, d, clock(turn + |frames|))
  {
    hide Dispatch, Sound;
    assert (frames + [d])[..|frames|] == frames;
  }

  /** Messages i to k of a list, from any state the first i can have led to. */
  lemma {:induction false} ListGoesOn(net: Net, s: Socket, before: set<Blob>, objs: seq<Object>, i: nat, k: nat,
                                      clock: Clock, turn: nat, marked: bool)
    requires Sound(net) && s in net.peers && Sendable(objs) && i <= k <= |objs| + 2
    requires AllLong(Part(objs, i, k)) && InList(net.peers[s].objs, before, objs, i, marked)
    ensures var r := DispatchAll(net, s, Part(objs, i, k), clock, turn);
      OthersKept(net, r, s) && InList(r.peers[s].objs, before, objs, k, marked)
  {
    hide Dispatch, DispatchAll, Sound, InList, ListFrames, Part, Sendable, AllLong, OthersKept;
    if i == k {
      PartNone(objs, i);
      DispatchNone(net, s, clock, turn);
    } else {
      var init := Part(objs, i, k - 1);
      PartMore(objs, i, k - 1);
      ListLong(objs, i, k - 1);
      var n := DispatchAll(net, s, init, clock, turn);
      ListGoesOn(net, s, before, objs, i, k - 1, clock, turn, marked);
      ListNext(n, s, before, objs, k - 1, clock(turn + (k - 1 - i)), marked);
      DispatchMore(net, s, init, ListFrames(objs)[k - 1], clock, turn);
      OthersTransitive(net, n, DispatchAll(net, s, Part(objs, i, k), clock, turn), s);
    }
  }

  /** The cache after LIST_BEGIN and k objects. */
  lemma SyncedAfter(net: Net, s: Socket, objs: seq<Object>, k: nat, clock: Clock, turn: nat)
    requires Sound(net) && s in net.peers && Sendable(objs) && k <= |objs|
    ensures AllLong(Part(objs, 0, k + 1))
    ensures var r := DispatchAll(net, s, Part(objs, 0, k + 1), clock, turn);
      OthersKept(net, r, s) && Syncing(r.peers[s].objs, net.peers[s].objs.Keys, objs[..k], true)
  {
    hide DispatchAll, Sound, Syncing, Synced, ListFrames, Part, AllLong, OthersKept;
    ListLong(objs, 0, k + 1);
    ListGoesOn(net, s, net.peers[s].objs.Keys, objs, 0, k + 1, clock, turn, true);
  }

  lemma KeptIn(net: Net, n: Net, s: Socket)
    requires OthersKept(net, n, s)
    ensures s in n.peers && n.peers[s].waiting <= net.peers[s].waiting
  {
  }

  /** With frames and tail in the input, the loop comes to tail in state n. */
  ghost predicate Comes(net: Net, n: Net, s: Socket, frames: seq<Blob>, tail: Blob, clock: Clock, turn: nat)
    requires Sound(net) && s in net.peers && Sound(n) && s in n.peers
  {
    Process(net, s, Flatten(frames) + tail, clock, turn)
      == Prepend(frames, Process(n, s, tail, clock, turn + |frames|))
  }

  lemma ComesAtOnce(net: Net, s: Socket, tail: Blob, clock: Clock, turn: nat)
    requires Sound(net) && s in net.peers
    ensures Comes(net, net, s, [], tail, clock, turn)
  {
    hide Process, Sound;
    assert Flatten([]) + tail == tail;
    var o := Process(net, s, tail, clock, turn);
    assert [] + o.frames == o.frames;
  }

  lemma ComesFurther(net: Net, n: Net, s: Socket, frames: seq<Blob>, d: Blob, tail: Blob, clock: Clock, turn: nat)
    requires Sound(net) && s in net.peers && Sound(n) && s in n.peers && n.peers[s].waiting < MAX_PEER_WAITREQS
    requires Framed(d) && |d| >= 8 && !Decode(d).Corrupt?
    requires Comes(net, n, s, frames, d + tail, clock, turn)
    ensures Comes(net, Dispatch(n, s, d, clock(turn + |frames|)), s, frames + [d], tail, clock, turn)
  {
    hide Process, Dispatch, Decode, Framed, Sound, Flatten, Prepend;
    var t := turn + |frames|;
    FlattenMore(frames, d);
    Assoc(Flatten(frames), d, tail);
    ProcessFrame(n, s, d, tail, clock, t);
    PrependTwice(frames, [d], Process(Dispatch(n, s, d, clock(t)), s, tail, clock, t + 1));
  }

  /** Messages i to k of a list, followed by tail, in the input: the wait limit
      does not stop the loop, since a list makes nobody wait. */
  lemma {:induction false} ListProcessed(net: Net, s: Socket, before: set<Blob>, objs: seq<Object>, i: nat, k: nat,
                                         tail: Blob, clock: Clock, turn: nat, marked: bool)
    requires Sound(net) && s in net.peers && Sendable(objs) && i <= k <= |objs| + 2
    requires net.peers[s].waiting < MAX_PEER_WAITREQS && InList(net.peers[s].objs, before, objs, i, marked)
    ensures AllLong(Part(objs, i, k))
    ensures Comes(net, DispatchAll(net, s, Part(objs, i, k), clock, turn), s, Part(objs, i, k), tail, clock, turn)
    decreases k
  {
    hide Dispatch, DispatchAll, Decode, Framed, Sound, InList, ListFrames, AllLong, Sendable, OthersKept, Part, Comes;
    ListLong(objs, i, k);
    if i == k {
      PartNone(objs, i);
      DispatchNone(net, s, clock, turn);
      ComesAtOnce(net, s, tail, clock, turn);
    } else {
      var init, last := Part(objs, i, k - 1), ListFrames(objs)[k - 1];
      PartMore(objs, i, k - 1);
      FrameWhole(objs, k - 1);
      ListLong(objs, i, k - 1);
      DispatchMore(net, s, init, last, clock, turn);
      ListProcessed(net, s, before, objs, i, k - 1, last + tail, clock, turn, marked);
      ListGoesOn(net, s, before, objs, i, k - 1, clock, turn, marked);
      var n := DispatchAll(net, s, init, clock, turn);
      KeptIn(net, n, s);
      ComesFurther(net, n, s, init, last, tail, clock, turn);
    }
  }

  // ----- the bytes of a list

  /** The part of message k that is left in the input. */
  predicate Partial(objs: seq<Object>, k: nat, rest: Blob) {
    if k < |objs| + 2 then rest < ListFrames(objs)[k] else k == |objs| + 2 && rest == []
  }

  lemma PartialKept(net: Net, s: Socket, objs: seq<Object>, k: nat, rest: Blob, clock: Clock, turn: nat)
    requires Sound(net) && s in net.peers && Sendable(objs) && Partial(objs, k, rest)
    ensures k <= |objs| + 2 && Process(net, s, rest, clock, turn) == Kept(net, [], rest)
  {
    hide Process, Sound, Decode, ListFrames, Sendable;
    if k < |objs| + 2 {
      FrameWhole(objs, k);
      assert rest == ListFrames(objs)[k][..|rest|];
      ProcessPartial(net, s, ListFrames(objs)[k], |rest|, clock, turn);
    } else {
      ProcessNothing(net, s, clock, turn);
    }
  }

  lemma ProcessNothing(net: Net, s: Socket, clock: Clock, turn: nat)
    requires Sound(net) && s in net.peers
    ensures Process(net, s, [], clock, turn) == Kept(net, [], [])
  {
  }

  lemma OpenedCaches(net: Net, s: Socket)
    requires Sound(net) && s in net.peers
    ensures var r := Opened(net, s);
      OthersKept(net, r, s) && r.peers[s].objs == net.peers[s].objs && r.peers[s].waiting == net.peers[s].waiting
  {
    assert OrderInv(net.peers[s]);
    SetCaches(net, s, TakeInput(net.peers[s]));
  }

  lemma FinishCaches(n: Net, s: Socket, frames: seq<Blob>, rest: Blob)
    requires Sound(n) && s in n.peers
    ensures var r := Finish(Kept(n, frames, rest), s, false);
      OthersKept(n, r, s) && r.peers[s].objs == n.peers[s].objs && r.peers[s].incoming == rest
  {
    assert OrderInv(n.peers[s]);
    SetCaches(n, s, PutBack(n.peers[s], rest, false));
  }

  /** A read that takes the input from message i of a list to message k. */
  lemma ListRead(net: Net, s: Socket, before: set<Blob>, objs: seq<Object>, i: nat, k: nat, bytes: Blob, rest: Blob,
                 clock: Clock, turn: nat, marked: bool)
    requires Sound(net) && s in net.peers && Sendable(objs) && i <= k && Partial(objs, k, rest)
    requires k <= |objs| + 2 && net.peers[s].incoming + bytes == Flatten(Part(objs, i, k)) + rest
    requires net.peers[s].waiting < MAX_PEER_WAITREQS && InList(net.peers[s].objs, before, objs, i, marked)
    ensures var r := Receive(net, s, bytes, false, clock, turn);
      OthersKept(net, r, s) && r.peers[s].incoming == rest && InList(r.peers[s].objs, before, objs, k, marked)
  {
    hide Process, Sound, InList, OthersKept, Opened, Finish, DispatchAll, AllLong;
    hide ListFrames, Flatten, Partial, Part, Sendable;
    var n0, f := Opened(net, s), Part(objs, i, k);
    OpenedCaches(net, s);
    ListProcessed(n0, s, before, objs, i, k, rest, clock, turn, marked);
    ListGoesOn(n0, s, before, objs, i, k, clock, turn, marked);
    var n := DispatchAll(n0, s, f, clock, turn);
    PartialKept(n, s, objs, k, rest, clock, turn + (k - i));
    assert f + [] == f;
    FinishCaches(n, s, f, rest);
    OthersTransitive(net, n0, n, s);
    OthersTransitive(net, n, Receive(net, s, bytes, false, clock, turn), s);
  }

  /** Receiving the bytes of a full list brings the cache for that peer in line
      with the list and changes no other cache. */
  lemma FullList(net: Net, s: Socket, objs: seq<Object>, clock: Clock, turn: nat)
    requires Sound(net) && s in net.peers && Sendable(objs)
    requires net.peers[s].incoming == [] && net.peers[s].waiting < MAX_PEER_WAITREQS
    ensures var r := Receive(net, s, ListBytes(objs), false, clock, turn);
      && OthersKept(net, r, s)
      && r.peers[s].incoming == []
      && Synced(r.peers[s].objs, objs, true)
  {
    hide Receive, Sound, Synced, ListBytes, ListFrames, Flatten, OthersKept, Sendable;
    FlattenListFrames(objs);
    var f := ListFrames(objs);
    assert f[0..|f|] == f && ListBytes(objs) + [] == ListBytes(objs) == [] + ListBytes(objs);
    ListRead(net, s, net.peers[s].objs.Keys, objs, 0, |objs| + 2, ListBytes(objs), [], clock, turn, true);
  }

  /** A proper prefix of some messages is whole messages and a part of the next. */
  lemma {:induction false} SplitPrefix(frames: seq<Blob>, j: nat) returns (k: nat, i: nat)
    requires j < |Flatten(frames)|
    ensures k < |frames| && i < |frames[k]|
    ensures Flatten(frames)[..j] == Flatten(frames[..k]) + frames[k][..i]
  {
    if j < |frames[0]| {
      k, i := 0, j;
      assert Flatten(frames)[..j] == frames[0][..j];
      assert Flatten(frames[..0]) == [];
    } else {
      var k', i' := SplitPrefix(frames[1..], j - |frames[0]|);
      k, i := k' + 1, i';
      assert frames[..k][1..] == frames[1..][..k'];
      assert Flatten(frames)[..j] == frames[0] + Flatten(frames[1..])[..j - |frames[0]|];
    }
  }

  lemma InListKeepsOld(cache: map<Blob, Object>, before: set<Blob>, objs: seq<Object>, k: nat, marked: bool)
    requires k < |objs| + 2 && InList(cache, before, objs, k, marked)
    ensures before <= cache.Keys
  {
  }

  /** Wherever the bytes of the list are cut off, every object held before the
      list is still found, and no other cache has changed. */
  lemma PartialList(net: Net, s: Socket, objs: seq<Object>, j: nat, clock: Clock, turn: nat)
    requires Sound(net) && s in net.peers && Sendable(objs) && j < |ListBytes(objs)|
    requires net.peers[s].incoming == [] && net.peers[s].waiting < MAX_PEER_WAITREQS
    ensures var r := Receive(net, s, ListBytes(objs)[..j], false, clock, turn);
      OthersKept(net, r, s) && net.peers[s].objs.Keys <= r.peers[s].objs.Keys
  {
    hide Receive, Sound, ListBytes, ListFrames, Flatten, OthersKept, Syncing, Synced, Sendable;
    FlattenListFrames(objs);
    var f, before, bytes := ListFrames(objs), net.peers[s].objs.Keys, ListBytes(objs)[..j];
    var k, i := SplitPrefix(f, j);
    assert f[0..k] == f[..k] && [] + bytes == bytes;
    ListRead(net, s, before, objs, 0, k, bytes, f[k][..i], clock, turn, true);
    var r := Receive(net, s, bytes, false, clock, turn);
    KeptIn(net, r, s);
    InListKeepsOld(r.peers[s].objs, before, objs, k, true);
  }

  // ----- two nodes

  lemma {:induction false} InObjectsOf(p: Peer, order: seq<Blob>, o: Object)
    requires forall n | n in order :: n in p.objs
    ensures o in ObjectsOf(p, order) <==> exists n :: n in order && o == p.objs[n]
  {
    if order != [] {
      InObjectsOf(p, order[..|order| - 1], o);
    }
  }

  lemma {:induction false} InObjectsOfPeers(peers: map<Socket, Peer>, ss: seq<Socket>, o: Object)
    requires forall s | s in ss :: s in peers && OrderInv(peers[s])
    ensures o in ObjectsOfPeers(peers, ss) <==> exists s, n :: s in ss && n in peers[s].objs && o == peers[s].objs[n]
  {
    if ss != [] {
      var init, last := ss[..|ss| - 1], ss[|ss| - 1];
      InObjectsOfPeers(peers, init, o);
      var p := peers[last];
      assert OrderInv(p);
      InObjectsOf(p, p.order, o);
      assert forall s :: s in ss <==> s in init || s == last;
    }
  }

  ghost predicate Holds(net: Net, name: Blob) {
    exists s :: s in net.peers && name in net.peers[s].objs
  }

  /** A node advertises the names under which its peers hold objects, provided
      no name has its last slash at the front. */
  lemma AdvertisedNames(net: Net, name: Blob)
    requires Sound(net)
    requires forall s, n | s in net.peers && n in net.peers[s].objs ::
      FullName(net.peers[s].objs[n]) == Join(DirOf(n), BaseOf(n)) && AfterSlash(n) != 1
    ensures name in NamesOf(AllObjects(net)) <==> Holds(net, name)
  {
    var ss := SortedKeys(net.peers.Keys);
    if Holds(net, name) {
      var s :| s in net.peers && name in net.peers[s].objs;
      InObjectsOfPeers(net.peers, ss, net.peers[s].objs[name]);
      AdvertisedNameIff(name);
    }
    if name in NamesOf(AllObjects(net)) {
      var o :| o in AllObjects(net) && FullName(o) == name;
      InObjectsOfPeers(net.peers, ss, o);
      var s, n :| s in ss && n in net.peers[s].objs && o == net.peers[s].objs[n];
      AdvertisedNameIff(n);
    }
  }

  /** After one node has received another's full list it holds, for that peer,
      a name iff the other holds it for one of its peers. */
  lemma TwoNodes(net: Net, s: Socket, other: Net, clock: Clock, name: Blob)
    requires Sound(net) && s in net.peers && net.peers[s].incoming == [] && net.peers[s].waiting < MAX_PEER_WAITREQS
    requires Sound(other) && Sendable(AllObjects(other))
    requires forall t, n | t in other.peers && n in other.peers[t].objs ::
      FullName(other.peers[t].objs[n]) == Join(DirOf(n), BaseOf(n)) && AfterSlash(n) != 1
    ensures var r := Receive(net, s, Data(Listing(AllObjects(other))), false, clock, 0);
      s in r.peers && (name in r.peers[s].objs <==> Holds(other, name))
  {
    hide Receive, ListBytes, AllObjects, WaitInv, OrdersInv, EncodeObject;
    FullList(net, s, AllObjects(other), clock, 0);
    AdvertisedNames(other, name);
  }
}
