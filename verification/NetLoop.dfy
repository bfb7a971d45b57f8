/** The complete effect of a turn of the main loop. */
module NetLoop {
  import opened Bytes
  import opened Messages
  import opened Options
  import opened NetState
  import opened NetSteps
  import opened NetFlush
  import opened NetWaits

  // ----- the peers that close

  lemma {:induction false} NoneDropped(ws: seq<Wait>, s: Socket)
    requires WaitNames(ws, s) == []
    ensures DropWaits(ws, s) == ws
  {
    if ws != [] {
      var init, w := ws[..|ws| - 1], ws[|ws| - 1];
      assert w.peer != s && WaitNames(init, s) == [] by {
        assert |WaitNames(ws, s)| == |WaitNames(init, s)| + if w.peer == s then 1 else 0;
      }
      hide WaitNames;
      NoneDropped(init, s);
    }
  }

  /** Peer s and the flags after one updateMask. */
  lemma MaskExactly(net: Net, t: Socket, s: Socket)
    requires Sound(net) && t in net.peers && s in net.peers
    ensures var r, p := UpdateMask(net, t), net.peers[s];
      && r == net.(peers := r.peers, wakeup := net.wakeup || (Closes(net.peers[t]) && net.peers[t].objs != map[]))
      && (s in r.peers <==> !(s == t && Closes(p)))
      && (s in r.peers ==> r.peers[s] == if s == t && p.connected then WithMask(p) else p)
  {
    SoundOrder(net, t);
    if Closes(net.peers[t]) {
      ClosingWaits(net, t);
    }
    hide Sound, OrderInv, DropWaits;
  }

  lemma ClosingWaits(net: Net, t: Socket)
    requires Sound(net) && t in net.peers && Closes(net.peers[t])
    ensures DropWaits(net.waiting, t) == net.waiting
  {
    assert WaitNames(net.waiting, t) == [];
    NoneDropped(net.waiting, t);
  }

  /** Some peer in ss closes that had objects. */
  ghost predicate Loses(net: Net, ss: seq<Socket>) {
    exists t :: t in ss && t in net.peers && Closes(net.peers[t]) && net.peers[t].objs != map[]
  }

  lemma LosesFirst(net: Net, n: Net, ss: seq<Socket>)
    requires ss != [] && ss[0] in net.peers && ss[0] !in ss[1..]
    requires forall u | u in ss[1..] :: u in net.peers && u in n.peers && n.peers[u] == net.peers[u]
    ensures Loses(net, ss) <==>
            (Closes(net.peers[ss[0]]) && net.peers[ss[0]].objs != map[]) || Loses(n, ss[1..])
  {
    hide Closes;
    assert ss == [ss[0]] + ss[1..];
    assert forall u | u in ss[1..] :: u in ss;
  }

  lemma {:induction false} MasksFlags(net: Net, ss: seq<Socket>)
    requires Sound(net) && forall t | t in ss :: t in net.peers
    requires forall i, j | 0 <= i < j < |ss| :: ss[i] < ss[j]
    ensures var r := UpdateMasks(net, ss); r == net.(peers := r.peers, wakeup := net.wakeup || Loses(net, ss))
    decreases |ss|
  {
    hide Sound, UpdateMask, Closes, WithMask, Loses;
    if ss == [] {
      NoneLost(net);
    } else {
      var n := UpdateMask(net, ss[0]);
      MaskExactly(net, ss[0], ss[0]);
      forall u | u in ss[1..]
        ensures u in net.peers && u in n.peers && n.peers[u] == net.peers[u]
      {
        MaskExactly(net, ss[0], u);
      }
      LosesFirst(net, n, ss);
      MasksFlags(n, ss[1..]);
    }
  }

  lemma NoneLost(net: Net)
    ensures !Loses(net, [])
  {
  }

  lemma {:induction false} MasksExactly(net: Net, ss: seq<Socket>, s: Socket)
    requires Sound(net) && s in net.peers
    requires forall t | t in ss :: t in net.peers
    requires forall i, j | 0 <= i < j < |ss| :: ss[i] < ss[j]
    ensures var r, p := UpdateMasks(net, ss), net.peers[s];
      && (s in r.peers <==> !(s in ss && Closes(p)))
      && (s in r.peers ==> r.peers[s] == if s in ss && p.connected then WithMask(p) else p)
    decreases |ss|
  {
    hide Sound, UpdateMask, Closes, WithMask;
    if ss != [] {
      var t, rest := ss[0], ss[1..];
      assert ss == [t] + rest && t !in rest;
      MaskExactly(net, t, s);
      var n := UpdateMask(net, t);
      forall u | u in rest
        ensures u in n.peers
      {
        MaskExactly(net, t, u);
      }
      if s in n.peers {
        MasksExactly(n, rest, s);
      }
    }
  }

  // ----- the waits that are overdue

  /** Waited for more than five seconds, or for a stale object for more than
      waitStale nanoseconds. */
  predicate Overdue(peers: map<Socket, Peer>, w: Wait, now: nat, waitStale: nat) {
    || w.time < now - 5_000_000_000
    || (w.time < now - waitStale && var o := FindAnywhere(peers, w.name); o.Some? && o.value.flags.stale)
  }

  /** The replies to s for its overdue waits, in order, with what objects there are. */
  function Late(peers: map<Socket, Peer>, ws: seq<Wait>, now: nat, waitStale: nat, s: Socket): seq<Queued> {
    if ws == [] then []
    else
      (if ws[0].peer == s && Overdue(peers, ws[0], now, waitStale)
       then [Reply(ws[0].name, FindAnywhere(peers, ws[0].name))] else [])
      + Late(peers, ws[1..], now, waitStale, s)
  }

  /** The waits that are not overdue. */
  function InTime(peers: map<Socket, Peer>, ws: seq<Wait>, now: nat, waitStale: nat): seq<Wait> {
    if ws == [] then []
    else (if Overdue(peers, ws[0], now, waitStale) then [] else [ws[0]]) + InTime(peers, ws[1..], now, waitStale)
  }

  lemma VerdictIs(net: Net, now: nat, waitStale: nat, w: Wait)
    ensures TimeoutVerdict(net, now - WAIT_MAX, now - waitStale)(w) ==
            if Overdue(net.peers, w, now, waitStale) then Release(FindAnywhere(net.peers, w.name)) else Keep
  {
    hide FindAnywhere;
  }

  lemma {:induction false} LateIs(net: Net, ws: seq<Wait>, now: nat, waitStale: nat, s: Socket)
    ensures var v := TimeoutVerdict(net, now - WAIT_MAX, now - waitStale);
      && RepliesTo(ws, v, s) == Late(net.peers, ws, now, waitStale, s)
      && Staying(ws, v) == InTime(net.peers, ws, now, waitStale)
  {
    hide TimeoutVerdict, Overdue, FindAnywhere;
    if ws != [] {
      VerdictIs(net, now, waitStale, ws[0]);
      LateIs(net, ws[1..], now, waitStale, s);
    }
  }

  /** What p has become when it has been sent late. */
  ghost predicate AnsweredLate(p: Peer, q: Peer, late: seq<Queued>) {
    && q == p.(log := p.log + late, sendq := p.sendq + Buckets(late), waiting := q.waiting)
    && q.waiting == p.waiting - |late|
  }

  lemma OverdueWaits(net: Net, now: nat, waitStale: nat)
    requires Sound(net)
    ensures var r := ReleaseOverdue(net, now, waitStale);
      r == net.(peers := r.peers, waiting := InTime(net.peers, net.waiting, now, waitStale))
  {
    hide WaitInv, OrdersInv, Sweep, TimeoutVerdict, InTime, Staying, RepliesTo;
    var v := TimeoutVerdict(net, now - WAIT_MAX, now - waitStale);
    SweepWaiting(net, 0, v);
    assert net.waiting[0..] == net.waiting && net.waiting[..0] + Staying(net.waiting, v) == Staying(net.waiting, v);
    LateIs(net, net.waiting, now, waitStale, 0);
  }

  lemma OverdueExactly(net: Net, now: nat, waitStale: nat, s: Socket)
    requires Sound(net) && s in net.peers
    ensures var r, late := ReleaseOverdue(net, now, waitStale), Late(net.peers, net.waiting, now, waitStale, s);
      AnsweredLate(net.peers[s], r.peers[s], late)
  {
    hide WaitInv, OrdersInv, Sweep, TimeoutVerdict, Late, Staying, RepliesTo, Buckets;
    var v := TimeoutVerdict(net, now - WAIT_MAX, now - waitStale);
    SweepReplies(net, 0, v, s);
    assert net.waiting[0..] == net.waiting;
    LateIs(net, net.waiting, now, waitStale, s);
  }

  // ----- the whole turn

  predicate Due(net: Net, now: nat) {
    net.flush && now > net.nextFlush
  }

  ghost predicate HasSubscriber(net: Net) {
    exists t :: t in net.peers && net.peers[t].update
  }

  /** The list that s gets: the first subscriber sees which objects are new. */
  ghost function ListTo(net: Net, s: Socket): (objs: seq<Object>)
    requires Sound(net)
  {
    if First(net, s) then AllObjects(net) else Aged(AllObjects(net))
  }

  /** What s is sent by the flush, if one is due. */
  ghost function Flushes(net: Net, now: nat, s: Socket): seq<Queued>
    requires Sound(net) && s in net.peers
  {
    if Due(net, now) && net.peers[s].update then [Listing(ListTo(net, s))] else []
  }

  /** The peer has closed its end, has nothing to come and waits for nothing. */
  predicate Finished(net: Net, now: nat, s: Socket)
    requires s in net.peers
  {
    var p := net.peers[s];
    && p.connected && !p.mask.read && p.mask.urgent && p.waiting == 0 && p.sendq == []
    && !(net.flush && now > net.nextFlush && p.update)
  }

  ghost predicate AfterFlush(net: Net, now: nat, s: Socket, q: Peer)
    requires Sound(net) && s in net.peers
  {
    var p, sent := net.peers[s], Flushes(net, now, s);
    q == p.(log := p.log + sent, sendq := p.sendq + Buckets(sent), updated := p.updated || sent != [],
            objs := if Due(net, now) && HasSubscriber(net) then ClearNew(p).objs else p.objs)
  }

  lemma BucketOne(objs: seq<Object>)
    ensures Buckets([]) == [] && Buckets([Listing(objs)]) == [ListBytes(objs)]
  {
    hide ListBytes;
  }

  lemma ToldIs(p: Peer, objs: seq<Object>, told: bool, aged: bool)
    ensures var sent := if told then [Listing(objs)] else [];
      Told(if aged then ClearNew(p) else p, if told then Some(Listing(objs)) else None) ==
      p.(log := p.log + sent, sendq := p.sendq + Buckets(sent), updated := p.updated || sent != [],
         objs := if aged then ClearNew(p).objs else p.objs)
  {
    BucketOne(objs);
    hide ListBytes, Buckets;
    assert p.log + [] == p.log && p.sendq + [] == p.sendq;
  }

  lemma FlushExactly(net: Net, now: nat, s: Socket)
    requires Sound(net) && s in net.peers
    ensures AfterFlush(net, now, s, FlushIfDue(net, now).peers[s])
  {
    hide WaitInv, OrderInv, ObjectsOfPeers, SortedKeys, SendListToPeers, Aged, ClearNew, Told, Buckets;
    var p := net.peers[s];
    ToldIs(p, ListTo(net, s), Due(net, now) && p.update, Due(net, now) && HasSubscriber(net));
    if Due(net, now) {
      FlushNotifies(net, now, s);
    } else {
      ToldNothing(p);
    }
  }

  lemma ClosesIff(net: Net, now: nat, s: Socket, q: Peer)
    requires Sound(net) && s in net.peers && AfterFlush(net, now, s, q)
    ensures Closes(q) <==> Finished(net, now, s)
    ensures q.objs == map[] <==> net.peers[s].objs == map[]
  {
    hide WaitInv, OrderInv, ListTo;
  }

  lemma SameFinds(a: map<Socket, Peer>, b: map<Socket, Peer>, name: Blob)
    requires a.Keys == b.Keys && forall t | t in a :: a[t].objs == b[t].objs
    ensures FindAnywhere(a, name) == FindAnywhere(b, name)
  {
    SameOwners(a, b, name);
    hide FindOwner;
  }

  lemma SameOwners(a: map<Socket, Peer>, b: map<Socket, Peer>, name: Blob)
    requires a.Keys == b.Keys && forall t | t in a :: a[t].objs == b[t].objs
    ensures FindOwner(a, name) == FindOwner(b, name)
  {
    hide FirstOwner, SortedKeys;
    var ss := SortedKeys(a.Keys);
    forall t | t in ss
      ensures t in a && t in b && a[t].objs.Keys == b[t].objs.Keys
    {
      assert t in a;
    }
    SameOwner(a, b, ss, name);
  }

  lemma SameOverdue(a: map<Socket, Peer>, b: map<Socket, Peer>, w: Wait, now: nat, waitStale: nat)
    requires a.Keys == b.Keys && forall t | t in a :: a[t].objs == b[t].objs
    ensures Overdue(a, w, now, waitStale) == Overdue(b, w, now, waitStale)
  {
    hide FindAnywhere;
    SameFinds(a, b, w.name);
  }

  lemma {:induction false} SameLate(a: map<Socket, Peer>, b: map<Socket, Peer>, ws: seq<Wait>, now: nat,
    waitStale: nat, s: Socket)
    requires a.Keys == b.Keys && forall t | t in a :: a[t].objs == b[t].objs
    ensures Late(a, ws, now, waitStale, s) == Late(b, ws, now, waitStale, s)
    ensures InTime(a, ws, now, waitStale) == InTime(b, ws, now, waitStale)
  {
    hide FindAnywhere, Overdue;
    if ws != [] {
      SameFinds(a, b, ws[0].name);
      SameOverdue(a, b, ws[0], now, waitStale);
      SameLate(a, b, ws[1..], now, waitStale, s);
    }
  }

  /** The node before the waits that are overdue are ended. */
  ghost function Masked(net: Net, now: nat): (r: Net)
    requires Sound(net)
    ensures Sound(r) && r.peers.Keys <= net.peers.Keys
  {
    var n := FlushIfDue(net, now);
    UpdateMasks(n, SortedKeys(n.peers.Keys))
  }

  lemma LoopIs(net: Net, now: nat, waitStale: nat)
    requires Sound(net)
    ensures Step(net, Loop(now, waitStale)) == ReleaseOverdue(Masked(net, now), now, waitStale)
  {
    hide Sound, FlushIfDue, UpdateMasks, ReleaseOverdue, SortedKeys;
  }

  lemma FlushFlags(net: Net, now: nat)
    requires Sound(net)
    ensures var r, due := FlushIfDue(net, now), Due(net, now);
      r == net.(peers := r.peers, flush := net.flush && !due,
                nextFlush := if due then now + 15_000_000_000 else net.nextFlush)
  {
    hide WaitInv, OrderInv, SortedKeys, SendListToPeers;
    if Due(net, now) {
      TurnsFlags(StartFlush(net, now), SortedKeys(net.peers.Keys), true);
    }
  }

  /** Some peer with objects closes. */
  ghost predicate LosesObjects(net: Net, now: nat) {
    exists t :: t in net.peers && Finished(net, now, t) && net.peers[t].objs != map[]
  }

  lemma MaskedFlags(net: Net, now: nat)
    requires Sound(net)
    ensures var r, due := Masked(net, now), Due(net, now);
      r == net.(peers := r.peers, wakeup := net.wakeup || LosesObjects(net, now), flush := net.flush && !due,
                nextFlush := if due then now + 15_000_000_000 else net.nextFlush)
  {
    hide Sound, FlushIfDue, UpdateMasks, SortedKeys, Closes, Finished, AfterFlush;
    var n := FlushIfDue(net, now);
    FlushFlags(net, now);
    MasksFlags(n, SortedKeys(n.peers.Keys));
    forall t | t in net.peers
      ensures Closes(n.peers[t]) <==> Finished(net, now, t)
      ensures n.peers[t].objs == map[] <==> net.peers[t].objs == map[]
    {
      FlushExactly(net, now, t);
      ClosesIff(net, now, t, n.peers[t]);
    }
  }

  lemma MaskedExactly(net: Net, now: nat, s: Socket) returns (q: Peer)
    requires Sound(net) && s in net.peers
    ensures AfterFlush(net, now, s, q)
    ensures s in Masked(net, now).peers <==> !Finished(net, now, s)
    ensures s in Masked(net, now).peers ==> Masked(net, now).peers[s] == if q.connected then WithMask(q) else q
  {
    hide Sound, FlushIfDue, UpdateMasks, SortedKeys, Closes, Finished, AfterFlush, WithMask;
    var n := FlushIfDue(net, now);
    q := n.peers[s];
    FlushExactly(net, now, s);
    ClosesIff(net, now, s, q);
    MasksExactly(n, SortedKeys(n.peers.Keys), s);
  }

  /** A turn of the loop ends the waits that are overdue and no others, gives up
      the peers that have finished and no others, and when the clients are to be
      told starts the interval to the next time. */
  lemma LoopFlags(net: Net, now: nat, waitStale: nat)
    requires Sound(net)
    ensures var r, due := Step(net, Loop(now, waitStale)), net.flush && now > net.nextFlush;
      && r.waiting == InTime(r.peers, net.waiting, now, waitStale)
      && r.flush == (net.flush && !due)
      && r.nextFlush == (if due then now + 15_000_000_000 else net.nextFlush)
      && r.wakeup == (net.wakeup || LosesObjects(net, now))
      && forall s :: s in r.peers <==> s in net.peers && !Finished(net, now, s)
  {
    hide WaitInv, OrdersInv, Step, Masked, ReleaseOverdue, InTime, Finished, Late, LosesObjects;
    var m := Masked(net, now);
    LoopIs(net, now, waitStale);
    MaskedFlags(net, now);
    var r := ReleaseOverdue(m, now, waitStale);
    SameLate(m.peers, r.peers, net.waiting, now, waitStale, 0);
    OverdueWaits(m, now, waitStale);
    forall s | s in net.peers
      ensures s in r.peers <==> !Finished(net, now, s)
    {
      var q := MaskedExactly(net, now, s);
    }
  }

  lemma {:induction false} InTimeAre(peers: map<Socket, Peer>, ws: seq<Wait>, now: nat, waitStale: nat)
    ensures forall w :: w in InTime(peers, ws, now, waitStale) <==> w in ws && !Overdue(peers, w, now, waitStale)
  {
    hide Overdue;
    if ws != [] {
      InTimeAre(peers, ws[1..], now, waitStale);
    }
  }

  /** After a turn of the loop nobody is kept waiting for too long, and no other
      wait has ended. */
  lemma NoOverdueWaits(net: Net, now: nat, waitStale: nat)
    requires Sound(net)
    ensures var r := Step(net, Loop(now, waitStale));
      forall w :: w in r.waiting <==> w in net.waiting && !Overdue(r.peers, w, now, waitStale)
  {
    hide Sound, Step, Overdue, InTime, LosesObjects;
    LoopFlags(net, now, waitStale);
    InTimeAre(Step(net, Loop(now, waitStale)).peers, net.waiting, now, waitStale);
  }

  /** Each peer that stays gets first the full list if it wants updates and a flush
      is due, then one answer for each of its waits that is overdue, with what
      there is of the object. */
  lemma LoopExactly(net: Net, now: nat, waitStale: nat, s: Socket)
    requires Sound(net) && s in net.peers && !Finished(net, now, s)
    ensures var r, p, due := Step(net, Loop(now, waitStale)), net.peers[s], net.flush && now > net.nextFlush;
      && s in r.peers
      && var q, late := r.peers[s], Late(r.peers, net.waiting, now, waitStale, s);
         var list := if due && p.update then [Listing(ListTo(net, s))] else [];
         && q.log == p.log + list + late
         && q.sendq == p.sendq + Buckets(list) + Buckets(late)
         && q.waiting == p.waiting - |late|
         && q.updated == (p.updated || (due && p.update))
         && q.objs == (if due && exists t :: t in net.peers && net.peers[t].update
                       then map n | n in p.objs :: p.objs[n].(flags := p.objs[n].flags.(isNew := false))
                       else p.objs)
         && q.mask == (if p.connected then p.mask.(write := p.sendq != [] || (due && p.update)) else p.mask)
         && q == p.(log := q.log, sendq := q.sendq, waiting := q.waiting, updated := q.updated, objs := q.objs,
                    mask := q.mask)
  {
    hide WaitInv, OrdersInv, Step, Masked, ReleaseOverdue, Finished, Late, Buckets, ListTo;
    var m := Masked(net, now);
    LoopIs(net, now, waitStale);
    var f := MaskedExactly(net, now, s);
    var r := ReleaseOverdue(m, now, waitStale);
    SameLate(m.peers, r.peers, net.waiting, now, waitStale, s);
    MaskedFlags(net, now);
    OverdueExactly(m, now, waitStale, s);
    SentBucket(net, now, s);
  }

  lemma SentBucket(net: Net, now: nat, s: Socket)
    requires Sound(net) && s in net.peers
    ensures Buckets(Flushes(net, now, s)) == [] <==> Flushes(net, now, s) == []
  {
    hide Data, Sound, ListTo;
  }

  // ----- changes are told

  lemma {:induction false} DropWaitsAre(ws: seq<Wait>, s: Socket)
    ensures forall w :: w in DropWaits(ws, s) <==> w in ws && w.peer != s
  {
    if ws != [] {
      var init, last := ws[..|ws| - 1], ws[|ws| - 1];
      assert ws == init + [last];
      DropWaitsAre(init, s);
    }
  }

  /** A peer that is lost takes its objects and its waits along; if it had objects
      there is something to tell. */
  lemma LossExactly(net: Net, t: Socket)
    requires Sound(net) && t in net.peers && net.peers[t].connected
    ensures var r := Step(net, Fail(t));
      && r.peers == net.peers - {t} && (forall w :: w in r.waiting <==> w in net.waiting && w.peer != t)
      && r.wakeup == (net.wakeup || net.peers[t].objs != map[])
      && r.flush == net.flush && r.nextFlush == net.nextFlush
  {
    hide Sound, DropWaits;
    DropWaitsAre(net.waiting, t);
  }

  lemma NotifiedIs(net: Net, s: Socket)
    requires Sound(net) && net.wakeup
    ensures var m := Step(net, Notified); m == net.(flush := true, wakeup := false) && ListTo(m, s) == ListTo(net, s)
  {
    hide WaitInv, OrderInv, ObjectsOfPeers, SortedKeys, Aged;
  }

  /** After the notification the next turn of the loop that is late enough tells
      every subscriber, connected or not, of all objects there are. */
  lemma NotifiedIsTold(net: Net, now: nat, waitStale: nat, s: Socket)
    requires Sound(net) && net.wakeup && s in net.peers && net.peers[s].update && now > net.nextFlush
    ensures var m, log := Step(net, Notified), net.peers[s].log;
      && m.peers == net.peers && m.waiting == net.waiting && !m.wakeup
      && var r := Step(m, Loop(now, waitStale));
         s in r.peers && !r.flush && |r.peers[s].log| > |log|
         && r.peers[s].log[..|log| + 1] == log + [Listing(ListTo(net, s))]
  {
    hide Sound, Step, LosesObjects, InTime, Late, ListTo, Buckets;
    var m := Step(net, Notified);
    NotifiedIs(net, s);
    LoopFlags(m, now, waitStale);
    LoopExactly(m, now, waitStale, s);
    var late, list := Late(Step(m, Loop(now, waitStale)).peers, m.waiting, now, waitStale, s), [Listing(ListTo(m, s))];
    assert (net.peers[s].log + list + late)[..|net.peers[s].log| + 1] == net.peers[s].log + list;
  }

  /** The loss of a peer that had objects is told to every subscriber. */
  lemma LossIsTold(net: Net, t: Socket, now: nat, waitStale: nat, s: Socket)
    requires Sound(net) && t in net.peers && net.peers[t].connected && net.peers[t].objs != map[]
    requires s in net.peers && s != t && net.peers[s].update && now > net.nextFlush
    ensures var n, log := Step(net, Fail(t)), net.peers[s].log;
      && n.peers == net.peers - {t} && n.wakeup
      && var r := Step(Step(n, Notified), Loop(now, waitStale));
         s in r.peers && |r.peers[s].log| > |log| && r.peers[s].log[..|log| + 1] == log + [Listing(ListTo(n, s))]
  {
    hide Sound, Step, ListTo;
    LossExactly(net, t);
    NotifiedIsTold(Step(net, Fail(t)), now, waitStale, s);
  }

  /** A local change is told as well. */
  lemma LocalChangeIsTold(net: Net, now: nat, waitStale: nat, s: Socket)
    requires Sound(net) && s in net.peers && net.peers[s].update && now > net.nextFlush
    ensures var n, log := Step(net, LocalChange), net.peers[s].log;
      && n.peers == net.peers && n.wakeup
      && var r := Step(Step(n, Notified), Loop(now, waitStale));
         s in r.peers && |r.peers[s].log| > |log| && r.peers[s].log[..|log| + 1] == log + [Listing(ListTo(n, s))]
  {
    LocalChangeIs(net);
    hide Sound, Step, ListTo;
    NotifiedIsTold(Step(net, LocalChange), now, waitStale, s);
  }

  lemma LocalChangeIs(net: Net)
    requires Sound(net)
    ensures Step(net, LocalChange) == net.(wakeup := true)
  {
    hide Sound;
  }
}
