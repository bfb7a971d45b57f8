/** The protocol's bytes, word by word and bit by bit. */
module WireFormat {
  import opened Bytes
  import opened Wire
  import opened Messages
  import opened NetState

  /** Which bit is which flag. */
  lemma FlagBits(w: Word32)
    ensures var f := FlagsOf(w);
      && f.low == w % 0x1_0000 && (f.isNew <==> w / 0x1_0000 % 2 == 1) && (f.received <==> w / 0x2_0000 % 2 == 1)
      && (f.lumi <==> w / 0x4_0000 % 2 == 1) && (f.dead <==> w / 0x8_0000 % 2 == 1)
      && (f.stale <==> w / 0x10_0000 % 2 == 1) && f.high == w / 0x20_0000
      && (f.IsScalar() <==> w % 0x1_0000 % 0x100 <= 0x0f)
  {
    assert w / 0x1_0000 / 2 == w / 0x2_0000;
    assert w / 0x2_0000 / 2 == w / 0x4_0000;
    assert w / 0x4_0000 / 2 == w / 0x8_0000;
    assert w / 0x8_0000 / 2 == w / 0x10_0000;
    assert w / 0x10_0000 / 2 == w / 0x20_0000;
  }

  lemma Unhalve(u: nat)
    ensures u == B(u % 2 == 1) + 2 * (u / 2)
  {
  }

  /** Putting the word together undoes taking it apart. */
  lemma WordOfFlags(w: Word32)
    ensures FlagsOf(w).Word() == w
  {
    var u := w / 0x1_0000;
    Unhalve(u);
    Unhalve(u / 2);
    Unhalve(u / 2 / 2);
    Unhalve(u / 2 / 2 / 2);
    Unhalve(u / 2 / 2 / 2 / 2);
    hide B;
  }

  // ----- which bytes are which message

  /** A message is told by its second word, its length and the words after that. */
  lemma DecodeIff(d: Blob, name: Blob, full: bool)
    requires |d| >= 8
    ensures Decode(d) == UpdateMe <==> Word(d, 1) == 1 && |d| == 8
    ensures Decode(d) == ListObjects <==> Word(d, 1) == 2
    ensures Decode(d) == GetObject(name) <==> |d| >= 12 && Word(d, 1) == 3 && Word(d, 2) == |name| && d[12..] == name
    ensures Decode(d) == ListBegin(full) <==> |d| == 16 && Word(d, 1) == 101 && (Word(d, 3) != 0 <==> full)
    ensures Decode(d) == ListEnd(full) <==> |d| == 16 && Word(d, 1) == 102 && (Word(d, 3) != 0 <==> full)
    ensures Decode(d) == NoneReply(name) <==> |d| >= 12 && Word(d, 1) == 103 && Word(d, 2) == |name| && d[12..] == name
    ensures Decode(d).ObjectReply? <==>
            Word(d, 1) == 104 && |d| >= 36 && |d| == 36 + Word(d, 6) + Word(d, 7) + Word(d, 8)
  {
    hide Word;
  }

  /** The parts of an OBJECT message in their order. */
  lemma ObjectParts(d: Blob)
    requires |d| >= 8 && Decode(d).ObjectReply?
    ensures var m := Decode(d);
      && |d| >= 36 && m.flags.Word() == Word(d, 2) && m.tag == Word(d, 5)
      && m.version % 0x1_0000_0000 == Word(d, 3) && m.version / 0x1_0000_0000 == Word(d, 4)
      && |m.name| == Word(d, 6) && |m.data| == Word(d, 7) && |m.qdata| == Word(d, 8)
      && d[36..] == m.name + m.data + m.qdata
  {
    hide Word;
    WordOfFlags(Word(d, 2));
    var n: nat, k: nat := Word(d, 6), Word(d, 7);
    assert d[36..] == d[36..36 + n] + d[36 + n..36 + n + k] + d[36 + n + k..];
  }

  lemma {:induction false} GetTells(a: Blob, b: Blob)
    requires |a| == |b| && Get(a) == Get(b)
    ensures a == b
  {
    if a != [] {
      assert a[0] == Get(a) % 256 && b[0] == Get(b) % 256;
      GetTells(a[1..], b[1..]);
      assert a == [a[0]] + a[1..] && b == [b[0]] + b[1..];
    }
  }

  lemma SameWords(d: Blob, e: Blob, n: nat)
    requires 4 * n <= |d| && 4 * n <= |e| && forall i: nat | i < n :: Word(d, i) == Word(e, i)
    ensures d[..4 * n] == e[..4 * n]
  {
    if n > 0 {
      SameWords(d, e, n - 1);
      var k := n - 1;
      assert Word(d, k) == Word(e, k);
      GetTells(d[4 * k..4 * k + 4], e[4 * k..4 * k + 4]);
      assert d[..4 * n] == d[..4 * k] + d[4 * k..4 * k + 4] && e[..4 * n] == e[..4 * k] + e[4 * k..4 * k + 4];
    }
  }

  lemma SameFrom(d: Blob, e: Blob, n: nat)
    requires 4 * n <= |d| && 4 * n <= |e| && (forall i: nat | i < n :: Word(d, i) == Word(e, i))
    requires d[4 * n..] == e[4 * n..]
    ensures d == e
  {
    SameWords(d, e, n);
    assert d == d[..4 * n] + d[4 * n..] && e == e[..4 * n] + e[4 * n..];
  }

  /** A frame that asks for an object or tells that there is none is the one that
      is sent for it. */
  lemma OneEncoding(d: Blob, name: Blob)
    requires Framed(d)
    ensures Decode(d) == GetObject(name) <==> d == EncodeGet(name)
    ensures Decode(d) == NoneReply(name) <==> d == EncodeNone(name)
  {
    DecodeIff(d, name, false);
    hide Decode, Word, EncodeGet, EncodeNone;
    ShortLength(name);
    if |d| >= 12 && Word(d, 2) == |name| && d[12..] == name {
      DecodeEncodeGet(name);
      DecodeEncodeNone(name);
      SameShort(d, EncodeGet(name), name);
      SameShort(d, EncodeNone(name), name);
    }
    if d == EncodeGet(name) {
      DecodeEncodeGet(name);
    }
    if d == EncodeNone(name) {
      DecodeEncodeNone(name);
    }
  }

  lemma ShortLength(name: Blob)
    ensures |EncodeGet(name)| == |EncodeNone(name)| == 12 + |name|
  {
  }

  lemma SameShort(d: Blob, e: Blob, name: Blob)
    requires Framed(d) && Framed(e) && |d| >= 12 && |e| >= 12
    requires Word(d, 2) == |name| && d[12..] == name && (Decode(e) == GetObject(name) || Decode(e) == NoneReply(name))
    ensures Word(e, 1) == Word(d, 1) ==> d == e
  {
    DecodeIff(e, name, false);
    hide Decode, Word;
    if Word(e, 1) == Word(d, 1) {
      forall i: nat | i < 3
        ensures Word(d, i) == Word(e, i)
      {
        assert i == 0 || i == 1 || i == 2;
      }
      SameFrom(d, e, 3);
    }
  }

  /** Two frames that tell the same of an object are the same. */
  lemma OneObject(d: Blob, e: Blob)
    requires Framed(d) && Framed(e) && Decode(d).ObjectReply? && Decode(d) == Decode(e)
    ensures d == e
  {
    ObjectParts(d);
    ObjectParts(e);
    DecodeIff(d, [], false);
    DecodeIff(e, [], false);
    hide Decode, Word;
    forall i: nat | i < 9
      ensures Word(d, i) == Word(e, i)
    {
      assert i == 0 || i == 1 || i == 2 || i == 3 || i == 4 || i == 5 || i == 6 || i == 7 || i == 8;
    }
    SameFrom(d, e, 9);
  }

  /** A list starts with the number of objects known and ends with the number of
      objects in it. */
  lemma ListCounts(known: Word32, objs: seq<Object>, full: bool)
    requires |objs| < 0x1_0000_0000
    ensures var d := UpdateBytes(known, objs, full);
      && |d| >= 32 && Decode(d[..16]) == ListBegin(full) && Word(d[..16], 2) == known
      && Decode(d[|d| - 16..]) == ListEnd(full) && Word(d[|d| - 16..], 2) == |objs|
  {
    var d, b, e := UpdateBytes(known, objs, full), EncodeListBegin(known, full), EncodeListEnd(|objs|, full);
    var flag := if full then 1 else 0;
    assert |b| == |e| == 16 && d[..16] == b && d[|d| - 16..] == e;
    assert b + [] == b && e + [] == e;
    WordAtWords([16, 101, known, flag], [], 2);
    WordAtWords([16, 102, |objs|, flag], [], 2);
    DecodeEncodeList(known, full);
    DecodeEncodeList(|objs|, full);
  }

  /** A full name has the character 47 between directory and name. */
  lemma FullNameIs(o: Object)
    ensures FullName(o) == if o.dirname == [] then o.objname else o.dirname + [47] + o.objname
    ensures 47 !in o.objname ==> DirOf(FullName(o)) == o.dirname && BaseOf(FullName(o)) == o.objname
  {
    if 47 !in o.objname {
      SplitJoin(o.dirname, o.objname);
    }
  }
}
