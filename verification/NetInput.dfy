/** What one read and one write do, in full. */
module NetInput {
  import opened Bytes
  import opened Messages
  import opened Options
  import opened NetState
  import opened NetSteps
  import opened NetFraming
  import opened NetSync

  // ----- one read

  lemma {:induction false} DispatchFirst(net: Net, s: Socket, f: Blob, frames: seq<Blob>, clock: Clock, turn: nat)
    requires Sound(net) && s in net.peers && |f| >= 8 && AllLong(frames) && AllLong([f] + frames)
    ensures DispatchAll(net, s, [f] + frames, clock, turn) ==
            DispatchAll(Dispatch(net, s, f, clock(turn)), s, frames, clock, turn + 1)
  {
    hide Sound, Dispatch, DispatchAll;
    var n := Dispatch(net, s, f, clock(turn));
    if frames == [] {
      DispatchNone(net, s, clock, turn);
      DispatchNone(n, s, clock, turn + 1);
      assert [] + [f] == [f] && [f] + frames == [f];
      DispatchMore(net, s, [], f, clock, turn);
    } else {
      var init, last := frames[..|frames| - 1], frames[|frames| - 1];
      assert frames == init + [last] && [f] + frames == ([f] + init) + [last];
      DispatchFirst(net, s, f, init, clock, turn);
      DispatchMore(net, s, [f] + init, last, clock, turn);
      DispatchMore(n, s, init, last, clock, turn + 1);
    }
  }

  /** The input cannot go on with a message: its length is too large or too
      small, or the message is malformed. */
  predicate Bad(rest: Blob) {
    && |rest| >= 4
    && (Word(rest, 0) >= 0x80_0000
        || (Word(rest, 0) <= |rest| && (Word(rest, 0) < 8 || Decode(rest[..Word(rest, 0)]).Corrupt?)))
  }

  /** What the loop makes of its input. */
  ghost predicate Processed(net: Net, s: Socket, buf: Blob, clock: Clock, turn: nat, o: Outcome)
    requires Sound(net) && s in net.peers
  {
    var k := |Flatten(o.frames)|;
    && AllLong(o.frames) && k <= |buf|
    && var n, rest := DispatchAll(net, s, o.frames, clock, turn), buf[k..];
       && (o.Lost? <==> n.peers[s].waiting < 128 && Bad(rest))
       && o.net == (if o.Lost? then LosePeer(n, s) else n)
       && (o.Kept? ==> o.rest == rest)
  }

  lemma ProcessedAtOnce(net: Net, s: Socket, buf: Blob, clock: Clock, turn: nat, o: Outcome)
    requires Sound(net) && s in net.peers && o.frames == []
    requires o.Lost? <==> net.peers[s].waiting < 128 && Bad(buf)
    requires o.net == (if o.Lost? then LosePeer(net, s) else net) && (o.Kept? ==> o.rest == buf)
    ensures Processed(net, s, buf, clock, turn, o)
  {
    hide Sound, LosePeer, Bad;
    assert DispatchAll(net, s, [], clock, turn) == net;
    assert buf[0..] == buf;
  }

  lemma ProcessedMore(net: Net, s: Socket, frame: Blob, tail: Blob, clock: Clock, turn: nat, o: Outcome)
    requires Sound(net) && s in net.peers && |frame| >= 8
    requires Processed(Dispatch(net, s, frame, clock(turn)), s, tail, clock, turn + 1, o)
    ensures Processed(net, s, frame + tail, clock, turn, o.(frames := [frame] + o.frames))
  {
    hide Sound, LosePeer, Bad, Dispatch, DispatchAll;
    var all := [frame] + o.frames;
    assert all[1..] == o.frames && Flatten(all) == frame + Flatten(o.frames);
    assert (frame + tail)[|Flatten(all)|..] == tail[|Flatten(o.frames)|..];
    DispatchFirst(net, s, frame, o.frames, clock, turn);
  }

  lemma {:induction false} ProcessExactly(net: Net, s: Socket, buf: Blob, clock: Clock, turn: nat)
    requires Sound(net) && s in net.peers
    ensures Processed(net, s, buf, clock, turn, Process(net, s, buf, clock, turn))
    decreases |buf|
  {
    hide Sound, Dispatch, Decode, LosePeer, Processed;
    if |buf| < 4 || net.peers[s].waiting >= MAX_PEER_WAITREQS {
      ProcessedAtOnce(net, s, buf, clock, turn, Kept(net, [], buf));
    } else {
      var msglen := Word(buf, 0);
      if msglen < MESSAGE_SIZE_LIMIT && 8 <= msglen <= |buf| && !Decode(buf[..msglen]).Corrupt? {
        var frame, tail := buf[..msglen], buf[msglen..];
        var n := Dispatch(net, s, frame, clock(turn));
        ProcessExactly(n, s, tail, clock, turn + 1);
        ProcessedMore(net, s, frame, tail, clock, turn, Process(n, s, tail, clock, turn + 1));
        assert frame + tail == buf;
      } else {
        if 8 <= msglen <= |buf| && Decode(buf[..msglen]).Corrupt? {
          CorruptChangesNothing(net, s, buf[..msglen], clock(turn));
        }
        ProcessedAtOnce(net, s, buf, clock, turn, Process(net, s, buf, clock, turn));
      }
    }
  }

  /** The node with what the peer had left over taken out of its buffer. */
  function Taken(net: Net, s: Socket): Net
    requires s in net.peers
  {
    net.(peers := net.peers[s := net.peers[s].(incoming := [])])
  }

  lemma TakenIs(net: Net, s: Socket)
    requires Sound(net) && s in net.peers
    ensures Sound(Taken(net, s)) && Opened(net, s) == Taken(net, s)
  {
    OpenedIs(net, s);
    var r := Opened(net, s);
    hide Opened, Sound;
  }

  /** One read: the messages that are complete are handled one after the other,
      and then the peer is given up if it may send more but the input cannot go
      on; otherwise the rest is kept, and a peer that has closed its end is not
      listened to any more. */
  lemma ReadExactly(net: Net, s: Socket, bytes: Blob, closed: bool, clock: Clock)
    requires Sound(net) && s in net.peers && net.peers[s].connected
    ensures Sound(Taken(net, s))
    ensures var r, buf := Step(net, Readable(s, bytes, closed, clock)), net.peers[s].incoming + bytes;
      exists frames ::
        && AllLong(frames) && AllFramed(frames) && Flatten(frames) <= buf
        && var n, rest := DispatchAll(Taken(net, s), s, frames, clock, 0), buf[|Flatten(frames)|..];
           var p := n.peers[s];
           r == if p.waiting < 128 && Bad(rest) then LosePeer(n, s)
                else n.(peers := n.peers[s :=
                  p.(incoming := rest, mask := if closed then p.mask.(read := false) else p.mask)])
  {
    TakenIs(net, s);
    var buf := net.peers[s].incoming + bytes;
    var n0 := Taken(net, s);
    var o := Process(n0, s, buf, clock, 0);
    ProcessExactly(n0, s, buf, clock, 0);
    ProcessFrames(n0, s, buf, clock, 0);
    ProcessConserves(n0, s, buf, clock, 0);
    ReceiveStep(net, s, bytes, closed, clock);
    hide Sound, Process, DispatchAll, LosePeer, Bad, Step, Taken, Flatten, AllFramed, AllLong;
    assert o.Kept? ==> Flatten(o.frames) <= buf;
  }

  lemma ReceiveStep(net: Net, s: Socket, bytes: Blob, closed: bool, clock: Clock)
    requires Sound(net) && s in net.peers && net.peers[s].connected
    ensures var o, r := Process(Opened(net, s), s, net.peers[s].incoming + bytes, clock, 0),
        Step(net, Readable(s, bytes, closed, clock));
      r == if o.Lost? then o.net else
        var p := o.net.peers[s];
        o.net.(peers := o.net.peers[s :=
          p.(incoming := o.rest, mask := if closed then p.mask.(read := false) else p.mask)])
  {
    hide WaitInv, Process, Opened, Indexes;
    var o := Process(Opened(net, s), s, net.peers[s].incoming + bytes, clock, 0);
    if o.Kept? {
      SoundOrder(o.net, s);
    }
    hide Sound, OrderInv;
  }

  // ----- one write

  /** What is left of the first bucket and how much of it a call takes. */
  function Left(p: Peer): Blob
    requires p.sendq != [] && p.sendpos <= |p.sendq[0]|
  {
    p.sendq[0][p.sendpos..]
  }

  lemma SentIs(p: Peer, done: nat)
    requires p.sendq != [] && p.sendpos <= |p.sendq[0]| && done <= |Left(p)|
    ensures var left := Left(p);
      Sent(p, done) ==
      if done == |left| then p.(sendq := p.sendq[1..], sendpos := 0, written := p.written + left)
      else p.(sendpos := p.sendpos + done, written := p.written + left[..done])
    ensures Sent(p, 0) == if Left(p) == [] then p.(sendq := p.sendq[1..], sendpos := 0) else p
  {
    var b := p.sendq[0];
    assert b[p.sendpos..p.sendpos + done] == Left(p)[..done] && Left(p)[..|Left(p)|] == Left(p);
    assert p.written + [] == p.written && b[p.sendpos..p.sendpos] == [];
  }

  /** A call takes as much of the first bucket as the socket accepts; if that is
      all of it, the next call is for the next bucket; if it is nothing, there is
      no further call. */
  lemma WriteExactly(p: Peer, offer: nat, accepts: seq<nat>)
    requires p.sendq != [] && p.sendpos < |p.sendq[0]|
    ensures var left, q := Left(p), Write(p, [offer] + accepts);
      if offer == 0 then q == p
      else if offer < |left| then
        q == Write(p.(sendpos := p.sendpos + offer, written := p.written + left[..offer]), accepts)
      else q == Write(p.(sendq := p.sendq[1..], sendpos := 0, written := p.written + left), accepts)
  {
    var left := Left(p);
    WriteStep(p, offer, accepts);
    if offer < |left| {
      SentIs(p, offer);
      hide Sent, Write, Left;
    } else {
      SentIs(p, |left|);
      hide Sent, Write, Left;
    }
  }

  /** A bucket of which nothing is left is taken off without a call. */
  lemma WriteSkips(p: Peer, offer: nat, accepts: seq<nat>)
    requires p.sendq != [] && p.sendpos == |p.sendq[0]|
    ensures Write(p, [offer] + accepts) == Write(p.(sendq := p.sendq[1..], sendpos := 0), [offer] + accepts)
  {
    WriteStep(p, offer, accepts);
    SentIs(p, 0);
    assert Left(p) == [];
    hide Sent, Write;
  }

  lemma WriteStep(p: Peer, offer: nat, accepts: seq<nat>)
    requires p.sendq != [] && p.sendpos <= |p.sendq[0]|
    ensures var left, q := Left(p), Write(p, [offer] + accepts);
      var done := if offer < |left| then offer else |left|;
      q == if done == 0 && left != [] then Sent(p, done)
           else Write(Sent(p, done), if left == [] then [offer] + accepts else accepts)
  {
    hide Sent;
    assert ([offer] + accepts)[1..] == accepts;
  }
}
