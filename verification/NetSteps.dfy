/** Messages, input, output and the main loop of a DQMNet as steps on its state. */
module NetSteps {
  import opened Bytes
  import opened Wire
  import opened Messages
  import opened Options
  import opened NetState

  /** What every step needs and keeps. */
  ghost predicate Sound(net: Net) {
    WaitInv(net) && OrdersInv(net)
  }

  lemma SoundOrder(net: Net, s: Socket)
    requires Sound(net) && s in net.peers
    ensures OrderInv(net.peers[s])
  {
  }

  lemma SoundQueues(net: Net, r: Net)
    requires Sound(net) && WaitInv(r) && OnlyQueues(net, r)
    ensures Sound(r) && r.peers.Keys == net.peers.Keys
  {
    forall s | s in r.peers
      ensures OrderInv(r.peers[s])
    {
      assert OrderInv(net.peers[s]);
    }
  }

  lemma LosePeerSound(net: Net, s: Socket)
    requires Sound(net) && s in net.peers
    ensures Sound(LosePeer(net, s))
  {
  }

  /** Store a changed peer. */
  function SetPeer(net: Net, s: Socket, p: Peer): (r: Net)
    requires Sound(net) && s in net.peers && OrderInv(p) && p.waiting == net.peers[s].waiting
    ensures Sound(r) && r.peers.Keys == net.peers.Keys
  {
    Update(net, s, p)
  }

  lemma PutObjectOrder(p: Peer, name: Blob, o: Object)
    requires OrderInv(p)
    ensures OrderInv(PutObject(p, name, o))
  {
  }

  lemma {:induction false} KeepInDistinct(order: seq<Blob>, keep: set<Blob>)
    requires forall i, j | 0 <= i < j < |order| :: order[i] != order[j]
    ensures forall i, j | 0 <= i < j < |KeepIn(order, keep)| :: KeepIn(order, keep)[i] != KeepIn(order, keep)[j]
  {
    if order != [] {
      var init := order[..|order| - 1];
      KeepInDistinct(init, keep);
      assert forall k | k in KeepIn(init, keep) :: k in init;
    }
  }

  lemma RestrictOrder(p: Peer, keep: set<Blob>)
    requires OrderInv(p)
    ensures OrderInv(Restrict(p, keep)) && Restrict(p, keep).waiting == p.waiting
  {
    KeepInDistinct(p.order, keep);
  }

  /** Store an object of a peer. */
  function Cache(net: Net, s: Socket, name: Blob, o: Object): (r: Net)
    requires Sound(net) && s in net.peers
    ensures Sound(r) && r.peers.Keys == net.peers.Keys
  {
    PutObjectOrder(net.peers[s], name, o);
    SetPeer(net, s, PutObject(net.peers[s], name, o))
  }

  function Queue(net: Net, s: Socket, q: Queued): (r: Net)
    requires Sound(net) && s in net.peers
    ensures Sound(r) && r.peers.Keys == net.peers.Keys
  {
    assert OrderInv(net.peers[s]);
    SetPeer(net, s, Enqueue(net.peers[s], q))
  }

  // ----- onMessage

  datatype Handled = Handled(net: Net, reply: Option<Queued>, ok: bool)

  function HandleGet(net: Net, s: Socket, name: Blob, now: nat): (r: Handled)
    requires Sound(net) && s in net.peers
    ensures Sound(r.net) && r.net.peers.Keys == net.peers.Keys
  {
    var n := Asked(net, s, name);
    match FindOwner(n.peers, name)
    case None => Handled(n, Some(Reply(name, None)), true)
    case Some(k) => AnswerFrom(n, s, name, k, now)
  }

  function AskedBy(p: Peer, name: Blob): Peer {
    p.(asked := p.asked + [name])
  }

  /** History: s has asked for name. */
  function Asked(net: Net, s: Socket, name: Blob): (r: Net)
    requires Sound(net) && s in net.peers
    ensures Sound(r) && r.peers.Keys == net.peers.Keys
  {
    assert OrderInv(net.peers[s]);
    SetPeer(net, s, AskedBy(net.peers[s], name))
  }

  /** Answer from peer k's cache, or defer the answer until k has sent the data. */
  function AnswerFrom(net: Net, s: Socket, name: Blob, k: Socket, now: nat): (r: Handled)
    requires Sound(net) && s in net.peers && k in net.peers && name in net.peers[k].objs
    ensures Sound(r.net) && r.net.peers.Keys == net.peers.Keys
  {
    var o := net.peers[k].objs[name].(lastreq := now);
    var n := Cache(net, k, name, o);
    if (o.rawdata == [] || o.flags.stale) && !o.flags.IsScalar() then
      Handled(Deferred(n, s, name, k, now), None, true)
    else
      Handled(n, Some(Reply(name, Some(o))), true)
  }

  function Deferred(net: Net, s: Socket, name: Blob, owner: Socket, now: nat): (r: Net)
    requires Sound(net) && s in net.peers && owner in net.peers
    ensures Sound(r) && r.peers.Keys == net.peers.Keys
  {
    var r := WaitForData(net, s, name, owner, now);
    SoundQueues(net, r);
    r
  }

  function Released(net: Net, name: Blob, o: Option<Object>): (r: Net)
    requires Sound(net)
    ensures Sound(r) && r.peers.Keys == net.peers.Keys
  {
    var r := ReleaseWaiters(net, name, o);
    SoundQueues(net, r);
    r
  }

  function Requested(net: Net, s: Socket, name: Blob): (r: Net)
    requires Sound(net) && s in net.peers
    ensures Sound(r) && r.peers.Keys == net.peers.Keys
  {
    var r := RequestObjectData(net, s, name);
    SoundQueues(net, r);
    r
  }

  /** The cache entry after an OBJECT message for it. */
  function ReceivedObject(old_: Object, m: Message): Object
    requires m.ObjectReply?
  {
    var f := m.flags.(isNew := true, received := true);
    old_.(
      flags := if !f.IsScalar() && m.data == [] && old_.rawdata != [] then f.(stale := true) else f,
      tag := m.tag, version := m.version, qdata := m.qdata,
      scalar := if f.IsScalar() then m.data else [],
      rawdata := if f.IsScalar() then [] else if m.data != [] then m.data else old_.rawdata)
  }

  function CachedOrFresh(p: Peer, name: Blob): Object {
    if name in p.objs then p.objs[name] else FreshObject(name)
  }

  function AsSource(p: Peer): Peer {
    p.(source := true)
  }

  function HandleObject(net: Net, s: Socket, m: Message): (r: Net)
    requires Sound(net) && s in net.peers && m.ObjectReply?
    ensures Sound(r) && r.peers.Keys == net.peers.Keys
  {
    var n0 := SetPeer(net, s, AsSource(net.peers[s]));
    var o := ReceivedObject(CachedOrFresh(n0.peers[s], m.name), m);
    var n1 := Cache(n0, s, m.name, o);
    var n2 := if o.lastreq > 0 && m.data == [] && !o.flags.IsScalar() then Requested(n1, s, m.name) else n1;
    if m.data != [] then Released(n2, m.name, Some(o)) else n2
  }

  function Purged(net: Net, s: Socket): (r: Net)
    requires Sound(net) && s in net.peers
    ensures Sound(r) && r.peers.Keys == net.peers.Keys
  {
    RestrictOrder(net.peers[s], LiveNames(net.peers[s].objs));
    SetPeer(net, s, PurgeDeadObjects(net.peers[s]))
  }

  function HandleNone(net: Net, s: Socket, name: Blob): (r: Net)
    requires Sound(net) && s in net.peers
    ensures Sound(r) && r.peers.Keys == net.peers.Keys
  {
    var n0 := SetPeer(net, s, AsSource(net.peers[s]));
    var n1 :=
      if name in n0.peers[s].objs then
        var o := n0.peers[s].objs[name];
        Purged(Cache(n0, s, name, o.(flags := o.flags.(dead := true))), s)
      else n0;
    Released(n1, name, None)
  }

  function HandleListBegin(net: Net, s: Socket, full: bool, now: nat): (r: Net)
    requires Sound(net) && s in net.peers
    ensures Sound(r) && r.peers.Keys == net.peers.Keys
  {
    if full then
      assert OrderInv(net.peers[s]);
      SetPeer(net, s, MarkObjectsDead(net.peers[s], now))
    else net
  }

  function HandleListEnd(net: Net, s: Socket, full: bool): (r: Net)
    requires Sound(net) && s in net.peers
    ensures Sound(r) && r.peers.Keys == net.peers.Keys
  {
    CountUpdate(Flagged(if full then Purged(net, s) else net), s)
  }

  function Counted(p: Peer): Peer {
    p.(updates := p.updates + 1)
  }

  function CountUpdate(net: Net, s: Socket): (r: Net)
    requires Sound(net) && s in net.peers
    ensures Sound(r) && r.peers.Keys == net.peers.Keys
  {
    assert OrderInv(net.peers[s]);
    SetPeer(net, s, Counted(net.peers[s]))
  }

  /** The clients are to be told about changes. */
  function Flagged(net: Net): (r: Net)
    requires Sound(net)
    ensures Sound(r) && r == net.(flush := true)
  {
    net.(flush := true)
  }

  function WantsUpdates(p: Peer): Peer {
    p.(update := true)
  }

  /** onMessage. */
  function OnMessage(net: Net, s: Socket, d: Blob, now: nat): (r: Handled)
    requires Sound(net) && s in net.peers && |d| >= 8
    ensures Sound(r.net) && r.net.peers.Keys == net.peers.Keys
  {
    match Decode(d)
    case UpdateMe => Handled(SetPeer(net, s, WantsUpdates(net.peers[s])), None, true)
    case ListObjects => Handled(net, Some(Listing(AllObjects(net))), true)
    case GetObject(name) => HandleGet(net, s, name, now)
    case ListBegin(full) => Handled(HandleListBegin(net, s, full, now), None, true)
    case ListEnd(full) => Handled(HandleListEnd(net, s, full), None, true)
    case ObjectReply(_, _, _, _, _, _) => Handled(HandleObject(net, s, Decode(d)), None, true)
    case NoneReply(name) => Handled(HandleNone(net, s, name), None, true)
    case Corrupt => Handled(net, None, false)
  }

  /** A message and the chaining of its reply. */
  function Dispatch(net: Net, s: Socket, d: Blob, now: nat): (r: Net)
    requires Sound(net) && s in net.peers && |d| >= 8
    ensures Sound(r) && r.peers.Keys == net.peers.Keys
  {
    var h := OnMessage(net, s, d, now);
    match h.reply
    case None => h.net
    case Some(q) => Queue(h.net, s, q)
  }

  // ----- onPeerData

  function Flatten(ds: seq<Blob>): Blob {
    if ds == [] then [] else ds[0] + Flatten(ds[1..])
  }

  /** The message loop either gives up on the peer or keeps unprocessed input;
      frames are the messages it dispatched. */
  datatype Outcome = Lost(net: Net, frames: seq<Blob>) | Kept(net: Net, frames: seq<Blob>, rest: Blob)

  /** What the clock says at each message of a loop, by the message's number. */
  type Clock = nat -> nat

  function Process(net: Net, s: Socket, buf: Blob, clock: Clock, turn: nat): (r: Outcome)
    requires Sound(net) && s in net.peers
    ensures Sound(r.net)
    ensures r.net.peers.Keys == if r.Lost? then net.peers.Keys - {s} else net.peers.Keys
    decreases |buf|
  {
    if |buf| < 4 || net.peers[s].waiting >= MAX_PEER_WAITREQS then Kept(net, [], buf)
    else
      var msglen := Word(buf, 0);
      if msglen >= MESSAGE_SIZE_LIMIT then LostTo(net, s)
      else if |buf| < msglen then Kept(net, [], buf)
      else if msglen < 8 then LostTo(net, s)
      else
        var frame := buf[..msglen];
        var n := Dispatch(net, s, frame, clock(turn));
        if Decode(frame).Corrupt? then LostTo(n, s)
        else
          var r := Process(n, s, buf[msglen..], clock, turn + 1);
          r.(frames := [frame] + r.frames)
  }

  function LostTo(net: Net, s: Socket): (r: Outcome)
    requires Sound(net) && s in net.peers
    ensures Sound(r.net) && r.Lost? && r.net.peers.Keys == net.peers.Keys - {s}
  {
    Lost(LosePeer(net, s), [])
  }

  function TakeInput(p: Peer): Peer {
    p.(incoming := [])
  }

  function Opened(net: Net, s: Socket): (r: Net)
    requires Sound(net) && s in net.peers
    ensures Sound(r) && r.peers.Keys == net.peers.Keys && r.peers[s].incoming == []
  {
    assert OrderInv(net.peers[s]);
    SetPeer(net, s, TakeInput(net.peers[s]))
  }

  function PutBack(p: Peer, rest: Blob, closed: bool): Peer {
    p.(incoming := rest, mask := if closed then p.mask.(read := false) else p.mask)
  }

  function Finish(o: Outcome, s: Socket, closed: bool): (r: Net)
    requires Sound(o.net) && (o.Kept? ==> s in o.net.peers)
    ensures Sound(r) && r.peers.Keys == o.net.peers.Keys
  {
    match o
    case Lost(n, _) => n
    case Kept(n, _, rest) =>
      assert OrderInv(n.peers[s]);
      SetPeer(n, s, PutBack(n.peers[s], rest, closed))
  }

  /** The input half of onPeerData for bytes read from the socket; closed says
      that the last read returned no data. */
  function Receive(net: Net, s: Socket, bytes: Blob, closed: bool, clock: Clock, turn: nat): (r: Net)
    requires Sound(net) && s in net.peers
    ensures Sound(r) && (r.peers.Keys == net.peers.Keys || r.peers.Keys == net.peers.Keys - {s})
  {
    Finish(Process(Opened(net, s), s, net.peers[s].incoming + bytes, clock, turn), s, closed)
  }

  /** One write call, by which done bytes of the first bucket leave. */
  function Sent(p: Peer, done: nat): Peer
    requires p.sendq != [] && p.sendpos + done <= |p.sendq[0]|
  {
    var b := p.sendq[0];
    var pos := p.sendpos + done;
    var q := p.(sendpos := pos, written := p.written + b[p.sendpos..pos]);
    if pos == |b| then q.(sendq := q.sendq[1..], sendpos := 0) else q
  }

  /** The output half of onPeerData; accepts lists how much each write call
      would take, and the socket takes nothing after that. */
  function Write(p: Peer, accepts: seq<nat>): Peer
    decreases |p.sendq|, |accepts|
  {
    if p.sendq == [] || p.sendpos > |p.sendq[0]| then p
    else
      var len := |p.sendq[0]| - p.sendpos;
      var offer := if accepts == [] then 0 else accepts[0];
      var done := if offer < len then offer else len;
      if done == 0 && len > 0 then Sent(p, done)
      else Write(Sent(p, done), if len == 0 || accepts == [] then accepts else accepts[1..])
  }

  // ----- updateMask and the main loop

  /** Listen for writing iff there is data to send. */
  function WithMask(p: Peer): Peer {
    p.(mask := p.mask.(write := p.sendq != []))
  }

  /** updateMask gives up the peer: nothing to read, to write or to wait for. */
  predicate Closes(p: Peer) {
    p.connected && WithMask(p).mask == Mask(false, false, true) && p.waiting == 0
  }

  function UpdateMask(net: Net, s: Socket): (r: Net)
    requires Sound(net) && s in net.peers
    ensures Sound(r) && net.peers.Keys - {s} <= r.peers.Keys <= net.peers.Keys
  {
    var p := net.peers[s];
    assert OrderInv(p);
    if !p.connected then net
    else if Closes(p) then LosePeer(SetPeer(net, s, WithMask(p)), s)
    else SetPeer(net, s, WithMask(p))
  }

  function UpdateMasks(net: Net, ss: seq<Socket>): (r: Net)
    requires Sound(net)
    requires forall s | s in ss :: s in net.peers
    requires forall i, j | 0 <= i < j < |ss| :: ss[i] < ss[j]
    ensures Sound(r) && r.peers.Keys <= net.peers.Keys
    decreases |ss|
  {
    if ss == [] then net else UpdateMasks(UpdateMask(net, ss[0]), ss[1..])
  }

  function ClearNew(p: Peer): Peer {
    p.(objs := map n | n in p.objs :: p.objs[n].(flags := p.objs[n].flags.(isNew := false)))
  }

  function ClearNewFlags(net: Net): (r: Net)
    requires Sound(net)
    ensures Sound(r) && r.peers.Keys == net.peers.Keys
  {
    var r := net.(peers := map s | s in net.peers :: ClearNew(net.peers[s]));
    assert OrdersInv(r) by {
      forall s | s in r.peers
        ensures OrderInv(r.peers[s])
      {
        assert OrderInv(net.peers[s]);
      }
    }
    r
  }

  function Updated(p: Peer): Peer {
    p.(updated := true)
  }

  /** What is sent to a peer: the whole list if it has had none yet or if so
      asked, and otherwise what is new. */
  function ListFor(p: Peer, objs: seq<Object>, all: bool): Queued {
    if all || !p.updated then Listing(objs) else News(Chosen(objs, false), |objs|)
  }

  /** One peer's turn: the list as it stands, after which no object is new. */
  function SendList(net: Net, s: Socket, all: bool): (r: Net)
    requires Sound(net) && s in net.peers
    ensures Sound(r) && r.peers.Keys == net.peers.Keys
  {
    var n := Queue(ClearNewFlags(net), s, ListFor(net.peers[s], AllObjects(net), all));
    assert OrderInv(n.peers[s]);
    SetPeer(n, s, Updated(n.peers[s]))
  }

  /** sendObjectListToPeers, for the peers in ss. */
  function SendListToPeers(net: Net, ss: seq<Socket>, all: bool): (r: Net)
    requires Sound(net)
    requires forall s | s in ss :: s in net.peers
    ensures Sound(r) && r.peers.Keys == net.peers.Keys
    decreases |ss|
  {
    if ss == [] then net
    else SendListToPeers(if net.peers[ss[0]].update then SendList(net, ss[0], all) else net, ss[1..], all)
  }

  /** Waiters get what there is: after a short time stale data, after a long
      time anything. */
  function TimeoutVerdict(net: Net, waitold: int, waitstale: int): Wait -> Verdict {
    (w: Wait) =>
      var o := FindAnywhere(net.peers, w.name);
      if w.time < waitold then Release(o)
      else if w.time < waitstale && o.Some? && o.value.flags.stale then Release(o)
      else Keep
  }

  const WAIT_MAX: nat := 5_000_000_000

  function ReleaseOverdue(net: Net, now: nat, waitStale: nat): (r: Net)
    requires Sound(net)
    ensures Sound(r) && OnlyQueues(net, r)
  {
    var r := Sweep(net, 0, TimeoutVerdict(net, now - WAIT_MAX, now - waitStale));
    SoundQueues(net, r);
    r
  }

  const FLUSH_INTERVAL: nat := 15_000_000_000

  function StartFlush(net: Net, now: nat): (r: Net)
    requires Sound(net)
    ensures Sound(r) && r.peers == net.peers
  {
    net.(flush := false, nextFlush := now + FLUSH_INTERVAL)
  }

  /** The rare full update of the peers that want updates. */
  function FlushIfDue(net: Net, now: nat): (r: Net)
    requires Sound(net)
    ensures Sound(r) && r.peers.Keys == net.peers.Keys
  {
    if net.flush && now > net.nextFlush then
      SendListToPeers(StartFlush(net, now), SortedKeys(net.peers.Keys), true)
    else net
  }

  /** What run() does after each dispatch of events. */
  function Tick(net: Net, now: nat, waitStale: nat): (r: Net)
    requires Sound(net)
    ensures Sound(r)
  {
    var n := FlushIfDue(net, now);
    ReleaseOverdue(UpdateMasks(n, SortedKeys(n.peers.Keys)), now, waitStale)
  }

  // ----- peers and local objects

  /** The key of the peer that holds a node's own objects. */
  const LOCAL: Socket := 0xFFFF_FFFF_FFFF_FFFF

  const InitialNet := Net(map[LOCAL := NewPeer], [], false, false, 0)

  lemma NoWaitsForUnknown(net: Net, s: Socket)
    requires WaitInv(net) && s !in net.peers
    ensures WaitNames(net.waiting, s) == []
  {
    NoWaits(net.waiting, s);
  }

  lemma {:induction false} NoWaits(ws: seq<Wait>, s: Socket)
    requires forall i | 0 <= i < |ws| :: ws[i].peer != s
    ensures WaitNames(ws, s) == []
  {
    if ws != [] {
      NoWaits(ws[..|ws| - 1], s);
    }
  }

  function AddPeer(net: Net, s: Socket, p: Peer): (r: Net)
    requires Sound(net) && s !in net.peers && p.waiting == 0 && OrderInv(p)
    ensures Sound(r)
  {
    NoWaitsForUnknown(net, s);
    Update(net, s, p)
  }

  /** onPeerConnect. */
  const AcceptedPeer := NewPeer.(connected := true, mask := Mask(true, false, true))

  /** A connection run() opens itself, to an upstream collector or to a
      downstream one that gets updates. */
  function DialledPeer(upstream: bool): Peer {
    var p := NewPeer.(connected := true, mask := Mask(true, true, true), update := !upstream);
    if upstream then Enqueue(p, Hello) else p
  }

  /** An object known already keeps its request time. */
  function AsLocal(objs: map<Blob, Object>, o: Object): Object {
    var name := FullName(o);
    o.(lastreq := if name in objs then objs[name].lastreq else o.lastreq)
  }

  /** updateLocalObject. */
  function UpdateLocal(net: Net, o: Object): (r: Net)
    requires Sound(net) && LOCAL in net.peers
    ensures Sound(r)
  {
    Cache(net, LOCAL, FullName(o), AsLocal(net.peers[LOCAL].objs, o))
  }

  function KnownNames(objs: map<Blob, Object>, known: set<Blob>): set<Blob> {
    set n | n in objs && FullName(objs[n]) in known
  }

  /** removeLocalExcept. */
  function RemoveLocalExcept(net: Net, known: set<Blob>): (r: Net)
    requires Sound(net) && LOCAL in net.peers
    ensures Sound(r)
  {
    var p := net.peers[LOCAL];
    RestrictOrder(p, KnownNames(p.objs, known));
    SetPeer(net, LOCAL, Restrict(p, KnownNames(p.objs, known)))
  }

  datatype Event =
    | Accept(s: Socket)
    | Dial(s: Socket, upstream: bool)
    | Readable(s: Socket, bytes: Blob, closed: bool, clock: Clock)
    | Writable(s: Socket, accepts: seq<nat>)
    | Fail(s: Socket)
    | Notified
    | LocalChange
    | NewLocal(o: Object)
    | OnlyLocal(known: set<Blob>)
    | Loop(now: nat, waitStale: nat)

  lemma {:induction false} WriteKeeps(p: Peer, accepts: seq<nat>)
    ensures var q := Write(p, accepts);
      q == p.(sendq := q.sendq, sendpos := q.sendpos, written := q.written)
    decreases |p.sendq|, |accepts|
  {
    if p.sendq != [] && p.sendpos <= |p.sendq[0]| {
      var len := |p.sendq[0]| - p.sendpos;
      var offer := if accepts == [] then 0 else accepts[0];
      var done := if offer < len then offer else len;
      if !(done == 0 && len > 0) {
        WriteKeeps(Sent(p, done), if len == 0 || accepts == [] then accepts else accepts[1..]);
      }
    }
  }

  function WriteTo(net: Net, s: Socket, accepts: seq<nat>): (r: Net)
    requires Sound(net) && s in net.peers
    ensures Sound(r)
  {
    WriteKeeps(net.peers[s], accepts);
    assert OrderInv(net.peers[s]);
    SetPeer(net, s, Write(net.peers[s], accepts))
  }

  /** An event concerns a connected peer or a socket not in use yet. */
  predicate Enabled(net: Net, e: Event) {
    match e
    case Accept(s) => s !in net.peers
    case Dial(s, _) => s !in net.peers
    case Readable(s, _, _, _) => s in net.peers && net.peers[s].connected
    case Writable(s, _) => s in net.peers && net.peers[s].connected
    case Fail(s) => s in net.peers && net.peers[s].connected
    case Notified => net.wakeup
    case LocalChange => true
    case NewLocal(o) => LOCAL in net.peers && SLASH !in o.objname
    case OnlyLocal(_) => LOCAL in net.peers
    case Loop(_, _) => true
  }

  function Step(net: Net, e: Event): (r: Net)
    requires Sound(net) && Enabled(net, e)
    ensures Sound(r)
  {
    match e
    case Accept(s) => AddPeer(net, s, AcceptedPeer)
    case Dial(s, upstream) => AddPeer(net, s, DialledPeer(upstream))
    case Readable(s, bytes, closed, clock) => Receive(net, s, bytes, closed, clock, 0)
    case Writable(s, accepts) => WriteTo(net, s, accepts)
    case Fail(s) => LosePeer(net, s)
    case Notified => Flagged(net).(wakeup := false)
    case LocalChange => net.(wakeup := true)
    case NewLocal(o) => UpdateLocal(net, o)
    case OnlyLocal(known) => RemoveLocalExcept(net, known)
    case Loop(now, waitStale) => Tick(net, now, waitStale)
  }

  /** A run; events that cannot happen are skipped. */
  ghost function RunFrom(net: Net, es: seq<Event>): (r: Net)
    requires Sound(net)
    ensures Sound(r)
  {
    if es == [] then net
    else
      var n := RunFrom(net, es[..|es| - 1]);
      if Enabled(n, es[|es| - 1]) then Step(n, es[|es| - 1]) else n
  }

  ghost function Run(es: seq<Event>): (r: Net)
    ensures Sound(r)
  {
    RunFrom(InitialNet, es)
  }
}
