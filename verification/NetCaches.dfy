/** What the caches hold, with all fields written out, and how they are searched
    and listed. */
module NetCaches {
  import opened Bytes
  import opened Wire
  import opened Messages
  import opened Options
  import opened NetState
  import opened NetSteps
  import opened NetSync
  import opened NetEffects

  // ----- search and lists

  lemma {:induction false} FirstOwnerIs(peers: map<Socket, Peer>, ss: seq<Socket>, name: Blob)
    requires forall s | s in ss :: s in peers
    requires forall i, j | 0 <= i < j < |ss| :: ss[i] < ss[j]
    ensures forall s :: FirstOwner(peers, ss, name) == Some(s) <==>
      s in ss && name in peers[s].objs && forall t | t in ss && t < s :: name !in peers[t].objs
  {
    if ss != [] {
      assert ss == [ss[0]] + ss[1..];
      FirstOwnerIs(peers, ss[1..], name);
    }
  }

  /** Of the peers that hold an object of that name the one with the lowest
      socket is the owner. */
  lemma OwnerIff(net: Net, name: Blob, s: Socket)
    ensures FindOwner(net.peers, name) == Some(s) <==>
      s in net.peers && name in net.peers[s].objs && forall t | t in net.peers && t < s :: name !in net.peers[t].objs
    ensures FindOwner(net.peers, name) == None <==> forall t | t in net.peers :: name !in net.peers[t].objs
  {
    hide FirstOwner, SortedKeys;
    FirstOwnerIs(net.peers, SortedKeys(net.peers.Keys), name);
  }

  /** How many objects the peers in ss hold together. */
  function Size(peers: map<Socket, Peer>, ss: seq<Socket>): nat
    requires forall s | s in ss :: s in peers
  {
    if ss == [] then 0 else Size(peers, ss[..|ss| - 1]) + |peers[ss[|ss| - 1]].objs|
  }

  lemma {:induction false} ObjectsAt(p: Peer, order: seq<Blob>)
    requires forall n | n in order :: n in p.objs
    ensures |ObjectsOf(p, order)| == |order|
    ensures forall i | 0 <= i < |order| :: ObjectsOf(p, order)[i] == p.objs[order[i]]
  {
    if order != [] {
      ObjectsAt(p, order[..|order| - 1]);
    }
  }

  lemma {:induction false} OrderCounts(order: seq<Blob>, names: set<Blob>)
    requires (forall n :: n in order <==> n in names)
    requires forall i, j | 0 <= i < j < |order| :: order[i] != order[j]
    ensures |order| == |names|
  {
    if order == [] {
      assert names == {};
    } else {
      var init, last := order[..|order| - 1], order[|order| - 1];
      assert order == init + [last];
      OrderCounts(init, names - {last});
    }
  }

  lemma PeerListed(p: Peer)
    requires OrderInv(p)
    ensures |ObjectsOf(p, p.order)| == |p.order| == |p.objs|
    ensures forall i | 0 <= i < |p.order| :: ObjectsOf(p, p.order)[i] == p.objs[p.order[i]]
  {
    ObjectsAt(p, p.order);
    OrderCounts(p.order, p.objs.Keys);
    assert |p.objs.Keys| == |p.objs|;
  }

  lemma {:induction false} ListedIn(peers: map<Socket, Peer>, ss: seq<Socket>, k: nat, i: nat)
    requires forall s | s in ss :: s in peers && OrderInv(peers[s])
    ensures |ObjectsOfPeers(peers, ss)| == Size(peers, ss)
    ensures k < |ss| && i < |peers[ss[k]].order| ==>
      && Size(peers, ss[..k]) + i < Size(peers, ss)
      && ObjectsOfPeers(peers, ss)[Size(peers, ss[..k]) + i] == peers[ss[k]].objs[peers[ss[k]].order[i]]
  {
    hide OrderInv, ObjectsOf;
    if ss != [] {
      var init, s := ss[..|ss| - 1], ss[|ss| - 1];
      ListedIn(peers, init, k, i);
      PeerListed(peers[s]);
      assert k < |init| ==> init[..k] == ss[..k];
    }
  }

  /** A list holds the objects of the peers, peer after peer in the order of their
      sockets, each object once. */
  lemma ListHoldsEachOnce(net: Net, k: nat, i: nat)
    requires Sound(net)
    ensures var ss, objs := SortedKeys(net.peers.Keys), AllObjects(net);
      && |objs| == Size(net.peers, ss)
      && (k < |ss| && i < |net.peers[ss[k]].order| ==>
          var at := Size(net.peers, ss[..k]) + i;
          at < |objs| && objs[at] == net.peers[ss[k]].objs[net.peers[ss[k]].order[i]])
  {
    hide WaitInv, OrderInv, SortedKeys, ObjectsOfPeers, Size;
    ListedIn(net.peers, SortedKeys(net.peers.Keys), k, i);
  }

  // ----- what is stored

  /** An object received without data keeps the data known, marked as stale; one
      with data replaces them; the time of the last request stays. */
  lemma ObjectStored(net: Net, s: Socket, d: Blob, now: nat)
    requires Sound(net) && s in net.peers && |d| >= 8 && Decode(d).ObjectReply?
    ensures var r, m, known := Dispatch(net, s, d, now), Decode(d), net.peers[s].objs;
      && s in r.peers && r.peers[s].objs.Keys == known.Keys + {m.name}
      && (forall n | n in known && n != m.name :: r.peers[s].objs[n] == known[n])
      && var o, scalar := r.peers[s].objs[m.name], m.flags.low % 0x100 <= 0x0f;
         var raw := if m.name in known then known[m.name].rawdata else [];
         && o.tag == m.tag && o.version == m.version && o.qdata == m.qdata
         && o.scalar == (if scalar then m.data else [])
         && o.rawdata == (if scalar then [] else if m.data != [] then m.data else raw)
         && o.flags == m.flags.(isNew := true, received := true,
                                stale := m.flags.stale || (!scalar && m.data == [] && raw != []))
         && o.lastreq == (if m.name in known then known[m.name].lastreq else 0)
         && o.dirname == (if m.name in known then known[m.name].dirname else DirOf(m.name))
         && o.objname == (if m.name in known then known[m.name].objname else BaseOf(m.name))
  {
    hide Sound, Dispatch, Decode, WaitsAfter, DirOf, BaseOf;
    DispatchEffect(net, s, d, now);
  }

  // ----- local objects

  /** A local object is stored under its full name and keeps the time of the last
      request for it; nothing else changes. */
  lemma NewLocalExactly(net: Net, o: Object)
    requires Sound(net) && LOCAL in net.peers && 47 !in o.objname
    ensures var r, p := Step(net, NewLocal(o)), net.peers[LOCAL];
      var name := if o.dirname == [] then o.objname else o.dirname + [47] + o.objname;
      && LOCAL in r.peers
      && var q := r.peers[LOCAL];
         && r == net.(peers := net.peers[LOCAL := q])
         && q == p.(objs := q.objs, order := if name in p.objs then p.order else p.order + [name])
         && q.objs == p.objs[name := o.(lastreq := if name in p.objs then p.objs[name].lastreq else o.lastreq)]
  {
    PutObjectOrder(net.peers[LOCAL], FullName(o), AsLocal(net.peers[LOCAL].objs, o));
    hide Sound, OrderInv;
  }

  /** Local objects stay iff their full name is among those known. */
  lemma OnlyLocalExactly(net: Net, known: set<Blob>)
    requires Sound(net) && LOCAL in net.peers
    ensures var r, p := Step(net, OnlyLocal(known)), net.peers[LOCAL];
      && LOCAL in r.peers
      && var q := r.peers[LOCAL];
         && r == net.(peers := net.peers[LOCAL := q])
         && q == p.(objs := q.objs, order := q.order)
         && (forall n :: n in q.objs <==> n in p.objs && FullName(p.objs[n]) in known)
         && (forall n | n in q.objs :: q.objs[n] == p.objs[n])
  {
    RestrictOrder(net.peers[LOCAL], KnownNames(net.peers[LOCAL].objs, known));
    hide Sound, OrderInv, FullName;
  }
}
