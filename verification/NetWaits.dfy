/** Exactly who is released by a pass over the wait list, and with what. */
module NetWaits {
  import opened Bytes
  import opened Messages
  import opened Options
  import opened NetState
  import opened NetSteps

  /** The entries that stay. */
  function Staying(ws: seq<Wait>, verdict: Wait -> Verdict): seq<Wait> {
    if ws == [] then []
    else (if verdict(ws[0]).Keep? then [ws[0]] else []) + Staying(ws[1..], verdict)
  }

  /** The replies that s gets, in the order of the wait list. */
  function RepliesTo(ws: seq<Wait>, verdict: Wait -> Verdict, s: Socket): seq<Queued> {
    if ws == [] then []
    else
      (if verdict(ws[0]).Release? && ws[0].peer == s then [Reply(ws[0].name, verdict(ws[0]).obj)] else [])
        + RepliesTo(ws[1..], verdict, s)
  }

  function Buckets(qs: seq<Queued>): seq<Blob> {
    if qs == [] then [] else [Data(qs[0])] + Buckets(qs[1..])
  }

  /** What the pass from entry i on does to peer s. */
  ghost predicate GetsReplies(net: Net, r: Net, ws: seq<Wait>, verdict: Wait -> Verdict, s: Socket)
    requires s in net.peers && s in r.peers
  {
    && r.peers[s].log == net.peers[s].log + RepliesTo(ws, verdict, s)
    && r.peers[s].sendq == net.peers[s].sendq + Buckets(RepliesTo(ws, verdict, s))
    && r.peers[s].waiting == net.peers[s].waiting - |RepliesTo(ws, verdict, s)|
  }

  lemma ReleasedGets(net: Net, i: nat, o: Option<Object>, s: Socket)
    requires WaitInv(net) && i < |net.waiting| && s in net.peers
    ensures var r, w := ReleaseOne(net, i, o), net.waiting[i];
      && r.waiting == Without(net.waiting, i)
      && (s != w.peer ==> r.peers[s] == net.peers[s])
      && (s == w.peer ==>
           r.peers[s] == Enqueue(net.peers[s], Reply(w.name, o)).(waiting := net.peers[s].waiting - 1))
  {
    hide Data;
    WaiterIsCounted(net, i);
  }

  lemma StayingStep(ws: seq<Wait>, i: nat, verdict: Wait -> Verdict)
    requires i < |ws|
    ensures verdict(ws[i]).Keep? ==>
      ws[..i] + Staying(ws[i..], verdict) == ws[..i + 1] + Staying(ws[i + 1..], verdict)
    ensures verdict(ws[i]).Release? ==>
      ws[..i] + Staying(ws[i..], verdict) == Without(ws, i)[..i] + Staying(Without(ws, i)[i..], verdict)
  {
    var rest := ws[i + 1..];
    assert ws[i..][0] == ws[i] && ws[i..][1..] == rest;
    assert Without(ws, i)[i..] == rest && Without(ws, i)[..i] == ws[..i];
    assert [] + Staying(rest, verdict) == Staying(rest, verdict);
    assert ws[..i] + ([ws[i]] + Staying(rest, verdict)) == ws[..i + 1] + Staying(rest, verdict);
  }

  lemma ReleasedWaiting(net: Net, i: nat, o: Option<Object>)
    requires WaitInv(net) && i < |net.waiting|
    ensures ReleaseOne(net, i, o).waiting == Without(net.waiting, i)
  {
    hide Data;
  }

  /** A pass over the wait list drops the entries the verdict condemns and
      keeps all others, in order. */
  lemma {:induction false} SweepWaiting(net: Net, i: nat, verdict: Wait -> Verdict)
    requires WaitInv(net) && i <= |net.waiting|
    ensures Sweep(net, i, verdict).waiting == net.waiting[..i] + Staying(net.waiting[i..], verdict)
    decreases |net.waiting| - i
  {
    hide WaitInv, ReleaseOne, Staying;
    if i < |net.waiting| {
      StayingStep(net.waiting, i, verdict);
      match verdict(net.waiting[i])
      case Keep => SweepWaiting(net, i + 1, verdict);
      case Release(o) =>
        ReleasedWaiting(net, i, o);
        SweepWaiting(ReleaseOne(net, i, o), i, verdict);
    } else {
      assert net.waiting[..i] == net.waiting && net.waiting[i..] == [];
      NothingStays(verdict);
    }
  }

  lemma NothingStays(verdict: Wait -> Verdict)
    ensures Staying([], verdict) == []
  {
  }

  lemma GetsNoMore(net: Net, r: Net, w: Wait, ws: seq<Wait>, verdict: Wait -> Verdict, s: Socket)
    requires s in net.peers && s in r.peers && (s != w.peer || verdict(w).Keep?)
    requires GetsReplies(net, r, ws, verdict, s)
    ensures GetsReplies(net, r, [w] + ws, verdict, s)
  {
    hide Data;
    var later := RepliesTo(ws, verdict, s);
    assert ([w] + ws)[0] == w && ([w] + ws)[1..] == ws;
    assert RepliesTo([w] + ws, verdict, s) == [] + later == later;
  }

  lemma GetsOneMore(p: Peer, q: Queued, later: seq<Queued>)
    ensures (p.log + [q]) + later == p.log + ([q] + later)
    ensures (p.sendq + [Data(q)]) + Buckets(later) == p.sendq + Buckets([q] + later)
  {
    hide Data;
    assert ([q] + later)[0] == q && ([q] + later)[1..] == later;
    assert (p.sendq + [Data(q)]) + Buckets(later) == p.sendq + ([Data(q)] + Buckets(later));
  }

  lemma GetsMore(net: Net, n: Net, r: Net, w: Wait, ws: seq<Wait>, verdict: Wait -> Verdict, s: Socket)
    requires s in net.peers && s in n.peers && s in r.peers && s == w.peer && verdict(w).Release?
    requires net.peers[s].waiting > 0
    requires n.peers[s] == Enqueue(net.peers[s], Reply(w.name, verdict(w).obj)).(waiting := net.peers[s].waiting - 1)
    requires GetsReplies(n, r, ws, verdict, s)
    ensures GetsReplies(net, r, [w] + ws, verdict, s)
  {
    var p, q, later := net.peers[s], Reply(w.name, verdict(w).obj), RepliesTo(ws, verdict, s);
    assert ([w] + ws)[0] == w && ([w] + ws)[1..] == ws;
    assert RepliesTo([w] + ws, verdict, s) == [q] + later;
    hide Data, Buckets, RepliesTo;
    GetsOneMore(p, q, later);
  }

  lemma GetsOnRelease(net: Net, i: nat, o: Option<Object>, r: Net, verdict: Wait -> Verdict, s: Socket)
    requires WaitInv(net) && i < |net.waiting| && s in net.peers && s in r.peers
    requires verdict(net.waiting[i]) == Release(o)
    requires GetsReplies(ReleaseOne(net, i, o), r, net.waiting[i + 1..], verdict, s)
    ensures GetsReplies(net, r, [net.waiting[i]] + net.waiting[i + 1..], verdict, s)
  {
    var w := net.waiting[i];
    assert s == w.peer ==> net.peers[s].waiting > 0 by { WaiterIsCounted(net, i); }
    ReleasedGets(net, i, o, s);
    hide ReleaseOne, WaitInv, Data, Enqueue;
    if s == w.peer {
      GetsMore(net, ReleaseOne(net, i, o), r, w, net.waiting[i + 1..], verdict, s);
    } else {
      GetsNoMore(ReleaseOne(net, i, o), r, w, net.waiting[i + 1..], verdict, s);
    }
  }

  /** And each peer gets one reply for each of its entries released, in order. */
  lemma {:induction false} SweepReplies(net: Net, i: nat, verdict: Wait -> Verdict, s: Socket)
    requires WaitInv(net) && i <= |net.waiting| && s in net.peers
    ensures GetsReplies(net, Sweep(net, i, verdict), net.waiting[i..], verdict, s)
    decreases |net.waiting| - i
  {
    if i < |net.waiting| {
      var w, rest := net.waiting[i], net.waiting[i + 1..];
      assert net.waiting[i..] == [w] + rest;
      match verdict(w)
      case Keep =>
        hide WaitInv, GetsReplies;
        SweepReplies(net, i + 1, verdict, s);
        GetsNoMore(net, Sweep(net, i + 1, verdict), w, rest, verdict, s);
      case Release(o) =>
        ReleasedWaiting(net, i, o);
        hide ReleaseOne, WaitInv, GetsReplies;
        var n := ReleaseOne(net, i, o);
        SweepReplies(n, i, verdict, s);
        assert n.waiting[i..] == rest;
        GetsOnRelease(net, i, o, Sweep(n, i, verdict), verdict, s);
    } else {
      assert net.waiting[i..] == [];
    }
  }

  /** When an object or the news of its absence arrives, every peer waiting for
      that name gets one reply per wait with that answer, and no other wait ends. */
  lemma WaitersReleased(net: Net, name: Blob, o: Option<Object>, s: Socket)
    requires Sound(net) && s in net.peers
    ensures var r := Released(net, name, o);
      && (forall w :: w in r.waiting <==> w in net.waiting && w.name != name)
      && |Repliers(net.waiting, name, s)| == |r.peers[s].log| - |net.peers[s].log|
      && r.peers[s].log == net.peers[s].log + seq(|Repliers(net.waiting, name, s)|, _ => Reply(name, o))
  {
    var verdict := (w: Wait) => if w.name == name then Release(o) else Keep;
    SweepWaiting(net, 0, verdict);
    SweepReplies(net, 0, verdict, s);
    assert net.waiting[0..] == net.waiting;
    NameReplies(net.waiting, name, o, s);
    NameStays(net.waiting, name, o);
  }

  /** The waits of s for name. */
  function Repliers(ws: seq<Wait>, name: Blob, s: Socket): seq<Wait> {
    if ws == [] then []
    else (if ws[0].name == name && ws[0].peer == s then [ws[0]] else []) + Repliers(ws[1..], name, s)
  }

  lemma {:induction false} NameReplies(ws: seq<Wait>, name: Blob, o: Option<Object>, s: Socket)
    ensures RepliesTo(ws, (w: Wait) => if w.name == name then Release(o) else Keep, s)
         == seq(|Repliers(ws, name, s)|, _ => Reply(name, o))
  {
    if ws != [] {
      NameReplies(ws[1..], name, o, s);
    }
  }

  lemma {:induction false} NameStays(ws: seq<Wait>, name: Blob, o: Option<Object>)
    ensures forall w :: w in Staying(ws, (w: Wait) => if w.name == name then Release(o) else Keep)
                        <==> w in ws && w.name != name
  {
    if ws != [] {
      NameStays(ws[1..], name, o);
    }
  }
}
