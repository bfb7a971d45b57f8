/** The state of a DQMNet and the effect of every step on it. */
module NetState {
  import opened Bytes
  import opened Wire
  import opened Messages
  import opened Options

  /** A socket pointer; peers_ is ordered by it. */
  type Socket = nat

  const MAX_PEER_WAITREQS := 128

  datatype Mask = Mask(read: bool, write: bool, urgent: bool)

  /** One output bucket, by what it was created for. */
  datatype Queued =
    | Reply(name: Blob, obj: Option<Object>)
    | Request(name: Blob)
    | Listing(objs: seq<Object>)
    | News(objs: seq<Object>, known: nat)
    | Hello

  function ObjectFrames(objs: seq<Object>): Blob {
    if objs == [] then []
    else
      var o := objs[|objs| - 1];
      ObjectFrames(objs[..|objs| - 1]) + EncodeObject(o, o.lastreq > 0)
  }

  /** What sendObjectListToPeer sends of the objects. */
  function Chosen(objs: seq<Object>, all: bool): seq<Object> {
    if objs == [] then []
    else
      var o := objs[|objs| - 1];
      Chosen(objs[..|objs| - 1], all) + (if all || o.flags.isNew then [o] else [])
  }

  /** The bytes of a list that tells of objs out of so many known objects. */
  function UpdateBytes(known: nat, objs: seq<Object>, full: bool): Blob {
    EncodeListBegin(known, full) + ObjectFrames(objs) + EncodeListEnd(|objs|, full)
  }

  /** The bytes of a full list. */
  function ListBytes(objs: seq<Object>): Blob {
    UpdateBytes(|objs|, objs, true)
  }

  /** What sendObjectListToPeer reserves for the objects. */
  function Reserved(objs: seq<Object>): nat {
    if objs == [] then 0
    else
      var o := objs[|objs| - 1];
      36 + |o.dirname| + |o.objname| + 1 + |o.scalar| + |o.qdata| + (if o.lastreq > 0 then |o.rawdata| else 0)
        + Reserved(objs[..|objs| - 1])
  }

  /** A list never outgrows the space reserved for it. */
  lemma {:induction false} ReserveSuffices(known: nat, objs: seq<Object>, full: bool)
    ensures |UpdateBytes(known, objs, full)| <= Reserved(objs) + 8 * 4
  {
    ObjectsReserved(objs);
  }

  lemma {:induction false} ObjectsReserved(objs: seq<Object>)
    ensures |ObjectFrames(objs)| <= Reserved(objs)
  {
    if objs != [] {
      ObjectsReserved(objs[..|objs| - 1]);
    }
  }

  /** The bytes of a bucket. */
  function Data(q: Queued): Blob {
    match q
    case Reply(name, None) => EncodeNone(name)
    case Reply(_, Some(o)) => EncodeObject(o, true)
    case Request(name) => EncodeGet(name)
    case Listing(objs) => ListBytes(objs)
    case News(objs, known) => UpdateBytes(known, objs, false)
    case Hello => EncodeHello()
  }

  /** A peer. objs is the hash set of objects, keyed by name, and order is the
      order in which iterators visit it. The last three fields are history:
      everything queued to the peer, the bytes written to its socket and the
      names of the GET_OBJECT requests accepted from it. */
  datatype Peer = Peer(
    objs: map<Blob, Object>, order: seq<Blob>, incoming: Blob, sendq: seq<Blob>, sendpos: nat,
    connected: bool, mask: Mask, source: bool, update: bool, updated: bool, updates: nat, waiting: nat,
    log: seq<Queued>, written: Blob, asked: seq<Blob>)

  datatype Wait = Wait(time: int, name: Blob, info: Blob, peer: Socket)

  /** wakeup says that the notification pipe holds a byte. */
  datatype Net = Net(peers: map<Socket, Peer>, waiting: seq<Wait>, flush: bool, wakeup: bool, nextFlush: nat)

  const NewPeer := Peer(map[], [], [], [], 0, false, Mask(false, false, false), false, false, false, 0, 0, [], [], [])

  function Update(net: Net, s: Socket, p: Peer): Net {
    net.(peers := net.peers[s := p])
  }

  /** Chain a new bucket to the write queue. */
  function Enqueue(p: Peer, q: Queued): Peer {
    p.(sendq := p.sendq + [Data(q)], log := p.log + [q])
  }

  // ----- the wait list

  /** The names for which s waits, in order. */
  function WaitNames(ws: seq<Wait>, s: Socket): seq<Blob> {
    if ws == [] then []
    else WaitNames(ws[..|ws| - 1], s) + (if ws[|ws| - 1].peer == s then [ws[|ws| - 1].name] else [])
  }

  lemma {:induction false} WaitNamesConcat(a: seq<Wait>, b: seq<Wait>, s: Socket)
    ensures WaitNames(a + b, s) == WaitNames(a, s) + WaitNames(b, s)
  {
    if b == [] {
      assert a + b == a;
    } else {
      var c := b[..|b| - 1];
      WaitNamesConcat(a, c, s);
      assert (a + b)[..|a + b| - 1] == a + c;
    }
  }

  /** Every entry names a live peer and the peers' counters count the entries. */
  ghost predicate WaitInv(net: Net) {
    && (forall i | 0 <= i < |net.waiting| :: net.waiting[i].peer in net.peers)
    && (forall s | s in net.peers :: net.peers[s].waiting == |WaitNames(net.waiting, s)|)
  }

  function Without(ws: seq<Wait>, i: nat): seq<Wait>
    requires i < |ws|
  {
    ws[..i] + ws[i + 1..]
  }

  lemma WaitNamesSplit(ws: seq<Wait>, i: nat, s: Socket)
    requires i < |ws|
    ensures WaitNames(ws, s) ==
      WaitNames(ws[..i], s) + (if ws[i].peer == s then [ws[i].name] else []) + WaitNames(ws[i + 1..], s)
    ensures WaitNames(Without(ws, i), s) == WaitNames(ws[..i], s) + WaitNames(ws[i + 1..], s)
  {
    var a, w, b := ws[..i], [ws[i]], ws[i + 1..];
    assert ws == (a + w) + b;
    WaitNamesConcat(a + w, b, s);
    WaitNamesConcat(a, w, s);
    WaitNamesConcat(a, b, s);
    assert w[..0] == [];
  }

  lemma WaitNamesWithout(ws: seq<Wait>, i: nat, s: Socket)
    requires i < |ws|
    ensures ws[i].peer != s ==> WaitNames(Without(ws, i), s) == WaitNames(ws, s)
    ensures ws[i].peer == s ==>
      && |WaitNames(ws, s)| == |WaitNames(Without(ws, i), s)| + 1
      && multiset(WaitNames(ws, s)) == multiset(WaitNames(Without(ws, i), s)) + multiset{ws[i].name}
  {
    hide WaitNames, Without;
    WaitNamesSplit(ws, i, s);
    if ws[i].peer != s {
      assert WaitNames(ws[..i], s) + [] == WaitNames(ws[..i], s);
    }
  }

  /** r differs from net in the wait list and in what is queued and waited for only. */
  ghost predicate OnlyQueues(net: Net, r: Net) {
    && r.peers.Keys == net.peers.Keys && r.flush == net.flush && r.wakeup == net.wakeup
    && r.nextFlush == net.nextFlush
    && forall s | s in net.peers ::
         var p, q := net.peers[s], r.peers[s];
         q == p.(sendq := q.sendq, log := q.log, waiting := q.waiting)
  }

  /** Dropping an entry and counting it off keeps the counters right. */
  lemma DropOne(net: Net, i: nat, r: Net)
    requires WaitInv(net) && i < |net.waiting|
    requires r.waiting == Without(net.waiting, i) && r.peers.Keys == net.peers.Keys
    requires forall s | s in net.peers ::
      r.peers[s].waiting == net.peers[s].waiting - (if s == net.waiting[i].peer then 1 else 0)
    ensures WaitInv(r)
  {
    forall s | s in r.peers
      ensures r.peers[s].waiting == |WaitNames(r.waiting, s)|
    {
      WaitNamesWithout(net.waiting, i, s);
    }
  }

  /** The assertion in releaseFromWait holds. */
  lemma WaiterIsCounted(net: Net, i: nat)
    requires WaitInv(net) && i < |net.waiting|
    ensures net.peers[net.waiting[i].peer].waiting > 0
  {
    WaitNamesWithout(net.waiting, i, net.waiting[i].peer);
  }

  /** The waiter once it has its reply. */
  function Served(p: Peer, name: Blob, o: Option<Object>): Peer
    requires p.waiting > 0
  {
    Enqueue(p, Reply(name, o)).(waiting := p.waiting - 1)
  }

  lemma ServedKeeps(net: Net, i: nat, o: Option<Object>)
    requires WaitInv(net) && i < |net.waiting|
    ensures var w := net.waiting[i];
      && net.peers[w.peer].waiting > 0
      && var r := Update(net, w.peer, Served(net.peers[w.peer], w.name, o)).(waiting := Without(net.waiting, i));
         WaitInv(r) && OnlyQueues(net, r)
  {
    hide Data, WaitNames, Without;
    WaiterIsCounted(net, i);
    var w := net.waiting[i];
    assert w.peer in net.peers;
    var p := Served(net.peers[w.peer], w.name, o);
    var r := Update(net, w.peer, p).(waiting := Without(net.waiting, i));
    hide WaitInv;
    DropOne(net, i, r);
  }

  /** releaseFromWait: reply to the waiter, count it off and drop the entry. */
  function ReleaseOne(net: Net, i: nat, o: Option<Object>): (r: Net)
    requires WaitInv(net) && i < |net.waiting|
    ensures WaitInv(r) && OnlyQueues(net, r)
  {
    var w := net.waiting[i];
    ServedKeeps(net, i, o);
    Update(net, w.peer, Served(net.peers[w.peer], w.name, o)).(waiting := Without(net.waiting, i))
  }

  datatype Verdict = Keep | Release(obj: Option<Object>)

  /** The loops over the wait list, which release some entries on their way. */
  function Sweep(net: Net, i: nat, verdict: Wait -> Verdict): (r: Net)
    requires WaitInv(net) && i <= |net.waiting|
    ensures WaitInv(r) && OnlyQueues(net, r)
    decreases |net.waiting| - i
  {
    if i == |net.waiting| then net
    else match verdict(net.waiting[i])
      case Keep => Sweep(net, i + 1, verdict)
      case Release(o) => Sweep(ReleaseOne(net, i, o), i, verdict)
  }

  function ReleaseWaiters(net: Net, name: Blob, o: Option<Object>): (r: Net)
    requires WaitInv(net)
    ensures WaitInv(r) && OnlyQueues(net, r)
  {
    Sweep(net, 0, (w: Wait) => if w.name == name then Release(o) else Keep)
  }

  function RequestObjectData(net: Net, s: Socket, name: Blob): (r: Net)
    requires s in net.peers
    ensures OnlyQueues(net, r) && (WaitInv(net) ==> WaitInv(r))
  {
    Update(net, s, Enqueue(net.peers[s], Request(name)))
  }

  /** Record a wait for s. */
  function AddWait(net: Net, s: Socket, w: Wait): (r: Net)
    requires WaitInv(net) && s in net.peers && w.peer == s
    ensures WaitInv(r) && OnlyQueues(net, r)
  {
    var p := net.peers[s];
    var r := Update(net, s, p.(waiting := p.waiting + 1)).(waiting := net.waiting + [w]);
    assert WaitInv(r) by {
      forall t | t in r.peers
        ensures WaitNames(r.waiting, t) == WaitNames(net.waiting, t) + (if t == s then [w.name] else [])
      {
        assert r.waiting[..|r.waiting| - 1] == net.waiting;
      }
    }
    r
  }

  /** waitForData. */
  function WaitForData(net: Net, s: Socket, name: Blob, owner: Socket, now: nat): (r: Net)
    requires WaitInv(net) && s in net.peers && owner in net.peers
    ensures WaitInv(r) && OnlyQueues(net, r)
  {
    AddWait(RequestObjectData(net, owner, name), s, Wait(now, name, [], s))
  }

  function DropWaits(ws: seq<Wait>, s: Socket): seq<Wait> {
    if ws == [] then []
    else DropWaits(ws[..|ws| - 1], s) + (if ws[|ws| - 1].peer == s then [] else [ws[|ws| - 1]])
  }

  lemma {:induction false} DropWaitsMembers(ws: seq<Wait>, s: Socket)
    ensures forall w | w in DropWaits(ws, s) :: w.peer != s && w in ws
  {
    if ws != [] {
      DropWaitsMembers(ws[..|ws| - 1], s);
    }
  }

  lemma {:induction false} DropWaitsNames(ws: seq<Wait>, s: Socket, t: Socket)
    ensures WaitNames(DropWaits(ws, s), t) == if s == t then [] else WaitNames(ws, t)
  {
    if ws != [] {
      var init, last := ws[..|ws| - 1], ws[|ws| - 1];
      DropWaitsNames(init, s, t);
      WaitNamesConcat(DropWaits(init, s), if last.peer == s then [] else [last], t);
      assert WaitNames([last], t) == if last.peer == t then [last.name] else [];
    }
  }

  /** losePeer. */
  function LosePeer(net: Net, s: Socket): (r: Net)
    requires s in net.peers
    ensures r.peers.Keys == net.peers.Keys - {s} && (WaitInv(net) ==> WaitInv(r))
  {
    LosePeerWaits(net, s);
    WithoutPeer(net, s)
  }

  function WithoutPeer(net: Net, s: Socket): Net
    requires s in net.peers
  {
    net.(peers := net.peers - {s}, waiting := DropWaits(net.waiting, s),
         wakeup := net.wakeup || net.peers[s].objs != map[])
  }

  lemma LosePeerWaits(net: Net, s: Socket)
    requires s in net.peers
    ensures WaitInv(net) ==> WaitInv(WithoutPeer(net, s))
  {
    DropWaitsMembers(net.waiting, s);
    forall t | t in net.peers && t != s
      ensures WaitNames(DropWaits(net.waiting, s), t) == WaitNames(net.waiting, t)
    {
      DropWaitsNames(net.waiting, s, t);
    }
    hide DropWaits, WaitNames;
  }

  // ----- the object caches

  function FreshObject(name: Blob): Object {
    Object(NoFlags, 0, 0, DirOf(name), BaseOf(name), 0, [], [], [])
  }

  /** Insert or overwrite an object. */
  function PutObject(p: Peer, name: Blob, o: Object): Peer {
    p.(objs := p.objs[name := o], order := if name in p.objs then p.order else p.order + [name])
  }

  const FIVE_MINUTES: nat := 300_000_000_000

  /** The last request is too long ago to count. */
  predicate Forgotten(o: Object, now: nat) {
    0 < o.lastreq && o.lastreq < now - FIVE_MINUTES
  }

  function MarkDead(o: Object, now: nat): Object {
    o.(lastreq := if Forgotten(o, now) then 0 else o.lastreq, flags := o.flags.(dead := true))
  }

  function MarkObjectsDead(p: Peer, now: nat): Peer {
    p.(objs := map n | n in p.objs :: MarkDead(p.objs[n], now))
  }

  function KeepIn(order: seq<Blob>, keep: set<Blob>): (r: seq<Blob>)
    ensures forall n :: n in r <==> n in order && n in keep
  {
    if order == [] then []
    else KeepIn(order[..|order| - 1], keep) + (if order[|order| - 1] in keep then [order[|order| - 1]] else [])
  }

  function LiveNames(objs: map<Blob, Object>): set<Blob> {
    set n | n in objs && !objs[n].flags.dead
  }

  function Restrict(p: Peer, keep: set<Blob>): Peer {
    p.(objs := map n | n in p.objs && n in keep :: p.objs[n], order := KeepIn(p.order, keep))
  }

  function PurgeDeadObjects(p: Peer): Peer {
    Restrict(p, LiveNames(p.objs))
  }

  // ----- iteration over the peers, in socket order

  lemma {:induction false} FindLeast(s: set<nat>) returns (m: nat)
    requires s != {}
    ensures m in s && forall x | x in s :: m <= x
  {
    var y :| y in s;
    if s - {y} == {} {
      assert s == {y};
      m := y;
    } else {
      var m' := FindLeast(s - {y});
      m := if y < m' then y else m';
      forall x | x in s
        ensures m <= x
      {
        assert x == y || x in s - {y};
      }
    }
  }

  lemma LeastExists(s: set<nat>)
    requires s != {}
    ensures exists m :: m in s && forall x | x in s :: m <= x
  {
    var m := FindLeast(s);
  }

  function Least(s: set<nat>): (m: nat)
    requires s != {}
    ensures m in s && forall x | x in s :: m <= x
  {
    LeastExists(s);
    var m :| m in s && forall x | x in s :: m <= x;
    m
  }

  lemma SortedCons(s: set<nat>, m: nat, rest: seq<nat>)
    requires m in s && forall x | x in s :: m <= x
    requires forall k :: k in rest <==> k in s - {m}
    requires |rest| == |s - {m}|
    requires forall i, j | 0 <= i < j < |rest| :: rest[i] < rest[j]
    ensures var r := [m] + rest;
      && (forall k :: k in r <==> k in s) && |r| == |s|
      && (forall i, j | 0 <= i < j < |r| :: r[i] < r[j])
  {
    var r := [m] + rest;
    forall j | 0 < j < |r|
      ensures m < r[j]
    {
      assert r[j] in rest;
    }
  }

  function SortedKeys(s: set<nat>): (r: seq<nat>)
    ensures forall k :: k in r <==> k in s
    ensures |r| == |s|
    ensures forall i, j | 0 <= i < j < |r| :: r[i] < r[j]
  {
    if s == {} then []
    else
      var m := Least(s);
      var rest := SortedKeys(s - {m});
      SortedCons(s, m, rest);
      [m] + rest
  }

  function FirstOwner(peers: map<Socket, Peer>, ss: seq<Socket>, name: Blob): (r: Option<Socket>)
    requires forall s | s in ss :: s in peers
    ensures r.Some? ==> r.value in peers && name in peers[r.value].objs && r.value in ss
    ensures r.None? ==> forall s | s in ss :: name !in peers[s].objs
  {
    if ss == [] then None
    else if name in peers[ss[0]].objs then Some(ss[0])
    else FirstOwner(peers, ss[1..], name)
  }

  /** findObject(0, name, &owner). */
  function FindOwner(peers: map<Socket, Peer>, name: Blob): (r: Option<Socket>)
    ensures r.Some? ==> r.value in peers && name in peers[r.value].objs
    ensures r.None? ==> forall s | s in peers :: name !in peers[s].objs
  {
    FirstOwner(peers, SortedKeys(peers.Keys), name)
  }

  /** Who owns a name depends on the names in the caches only. */
  lemma {:induction false} SameOwner(a: map<Socket, Peer>, b: map<Socket, Peer>, ss: seq<Socket>, name: Blob)
    requires forall s | s in ss :: s in a && s in b && a[s].objs.Keys == b[s].objs.Keys
    ensures FirstOwner(a, ss, name) == FirstOwner(b, ss, name)
  {
    if ss != [] {
      SameOwner(a, b, ss[1..], name);
    }
  }

  function FindAnywhere(peers: map<Socket, Peer>, name: Blob): Option<Object> {
    match FindOwner(peers, name)
    case Some(s) => Some(peers[s].objs[name])
    case None => None
  }

  /** The objects of a peer as its iterator visits them. */
  function ObjectsOf(p: Peer, order: seq<Blob>): seq<Object>
    requires forall n | n in order :: n in p.objs
  {
    if order == [] then [] else ObjectsOf(p, order[..|order| - 1]) + [p.objs[order[|order| - 1]]]
  }

  /** order lists the keys of objs, each once. */
  ghost predicate Indexes(order: seq<Blob>, objs: map<Blob, Object>) {
    && (forall n :: n in order <==> n in objs)
    && (forall i, j | 0 <= i < j < |order| :: order[i] != order[j])
  }

  ghost predicate OrderInv(p: Peer) {
    Indexes(p.order, p.objs)
  }

  function ObjectsOfPeers(peers: map<Socket, Peer>, ss: seq<Socket>): seq<Object>
    requires forall s | s in ss :: s in peers && OrderInv(peers[s])
  {
    if ss == [] then []
    else
      var p := peers[ss[|ss| - 1]];
      assert OrderInv(p);
      ObjectsOfPeers(peers, ss[..|ss| - 1]) + ObjectsOf(p, p.order)
  }

  ghost predicate OrdersInv(net: Net) {
    forall s | s in net.peers :: OrderInv(net.peers[s])
  }

  function AllObjects(net: Net): seq<Object>
    requires OrdersInv(net)
  {
    ObjectsOfPeers(net.peers, SortedKeys(net.peers.Keys))
  }
}
