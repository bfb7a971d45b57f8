/** The messages of the DQM network protocol and their byte form. */
module Messages {
  import opened Bytes
  import opened Wire

  const SLASH: Byte := 47

  /** An object of a peer's cache. */
  datatype Object = Object(
    flags: Flags, tag: Word32, version: Word64, dirname: Blob, objname: Blob,
    lastreq: nat, rawdata: Blob, scalar: Blob, qdata: Blob)

  // ----- names

  /** The position after the last slash, 0 if there is none: rfind('/') + 1. */
  function AfterSlash(name: Blob): (n: nat)
    ensures n <= |name|
    ensures n > 0 ==> name[n - 1] == SLASH
    ensures forall k | n <= k < |name| :: name[k] != SLASH
  {
    if name == [] then 0
    else if name[|name| - 1] == SLASH then |name|
    else AfterSlash(name[..|name| - 1])
  }

  function DirOf(name: Blob): Blob {
    if AfterSlash(name) == 0 then [] else name[..AfterSlash(name) - 1]
  }

  function BaseOf(name: Blob): Blob {
    name[AfterSlash(name)..]
  }

  function Join(dir: Blob, base: Blob): Blob {
    if dir == [] then base else dir + [SLASH] + base
  }

  /** The name under which an object is advertised. */
  function FullName(o: Object): Blob {
    Join(o.dirname, o.objname)
  }

  /** An object filed under a name is advertised under that name iff the last
      slash of the name is not its first character. */
  lemma AdvertisedNameIff(name: Blob)
    ensures Join(DirOf(name), BaseOf(name)) == name <==> AfterSlash(name) != 1
  {
    var n := AfterSlash(name);
    if n == 0 {
      assert name[0..] == name;
    } else if n == 1 {
      assert |BaseOf(name)| == |name| - 1;
    } else {
      assert name[..n - 1] + [SLASH] + name[n..] == name;
    }
  }

  lemma {:induction false} AfterSlashUnique(name: Blob, n: nat)
    requires n <= |name|
    requires n > 0 ==> name[n - 1] == SLASH
    requires forall k | n <= k < |name| :: name[k] != SLASH
    ensures AfterSlash(name) == n
  {
  }

  /** Joining a directory and a slash-free name can be split again. */
  lemma SplitJoin(dir: Blob, base: Blob)
    requires SLASH !in base
    ensures DirOf(Join(dir, base)) == dir && BaseOf(Join(dir, base)) == base
  {
    var name := Join(dir, base);
    var n := if dir == [] then 0 else |dir| + 1;
    forall k | n <= k < |name|
      ensures name[k] != SLASH
    {
      assert name[k] == base[k - n];
    }
    AfterSlashUnique(name, n);
    assert dir != [] ==> name[..n - 1] == dir;
    assert name[n..] == base;
  }

  // ----- encoding

  const DQM_MSG_UPDATE_ME := 1
  const DQM_MSG_LIST_OBJECTS := 2
  const DQM_MSG_GET_OBJECT := 3
  const DQM_REPLY_LIST_BEGIN := 101
  const DQM_REPLY_LIST_END := 102
  const DQM_REPLY_NONE := 103
  const DQM_REPLY_OBJECT := 104

  const MESSAGE_SIZE_LIMIT := 0x80_0000

  /** The data part sendObjectToPeer chooses. */
  function SentData(o: Object, data: bool): Blob {
    if o.flags.IsScalar() then o.scalar
    else if data && |o.rawdata| > 0 then o.rawdata
    else []
  }

  function ObjectHeader(o: Object, data: bool): seq<nat> {
    var n, d, q := |FullName(o)|, |SentData(o, data)|, |o.qdata|;
    [36 + n + d + q, DQM_REPLY_OBJECT, o.flags.(dead := false).Word(),
     o.version % 0x1_0000_0000, o.version / 0x1_0000_0000, o.tag, n, d, q]
  }

  /** sendObjectToPeer. */
  function EncodeObject(o: Object, data: bool): (d: Blob)
    ensures |d| == 36 + |FullName(o)| + |SentData(o, data)| + |o.qdata|
  {
    Words(ObjectHeader(o, data)) + (FullName(o) + SentData(o, data) + o.qdata)
  }

  function EncodeNone(name: Blob): Blob {
    Words([12 + |name|, DQM_REPLY_NONE, |name|]) + name
  }

  /** requestObjectData. */
  function EncodeGet(name: Blob): Blob {
    Words([12 + |name|, DQM_MSG_GET_OBJECT, |name|]) + name
  }

  function EncodeListBegin(numobjs: nat, full: bool): Blob {
    Words([16, DQM_REPLY_LIST_BEGIN, numobjs, if full then 1 else 0])
  }

  function EncodeListEnd(nupdates: nat, full: bool): Blob {
    Words([16, DQM_REPLY_LIST_END, nupdates, if full then 1 else 0])
  }

  /** What run() sends first to the upstream collector. */
  function EncodeHello(): Blob {
    Words([8, DQM_MSG_LIST_OBJECTS, 8, DQM_MSG_UPDATE_ME])
  }

  // ----- decoding

  datatype Message =
    | UpdateMe
    | ListObjects
    | GetObject(name: Blob)
    | ListBegin(full: bool)
    | ListEnd(full: bool)
    | ObjectReply(flags: Flags, version: Word64, tag: Word32, name: Blob, data: Blob, qdata: Blob)
    | NoneReply(name: Blob)
    | Corrupt

  lemma {:induction false} GetBelow(d: Blob)
    ensures Get(d) < Pow256(|d|)
  {
    if d != [] {
      GetBelow(d[1..]);
    }
  }

  function Word(d: Blob, i: nat): Word32
    requires 4 * i + 4 <= |d|
  {
    assert Pow256(4) == 0x1_0000_0000;
    GetBelow(d[4 * i..4 * i + 4]);
    WordAt(d, i)
  }

  function DecodeObject(d: Blob): Message
    requires |d| >= 36
  {
    var n, dl, q := Word(d, 6), Word(d, 7), Word(d, 8);
    if |d| != 36 + n + dl + q then Corrupt
    else ObjectReply(
      FlagsOf(Word(d, 2)), Word(d, 4) * 0x1_0000_0000 + Word(d, 3), Word(d, 5),
      d[36..36 + n], d[36 + n..36 + n + dl], d[36 + n + dl..])
  }

  /** The checks onMessage makes before it acts on a message. */
  function Decode(d: Blob): Message
    requires |d| >= 8
  {
    var kind := Word(d, 1);
    if kind == DQM_MSG_UPDATE_ME then
      if |d| != 8 then Corrupt else UpdateMe
    else if kind == DQM_MSG_LIST_OBJECTS then
      ListObjects
    else if kind == DQM_MSG_GET_OBJECT then
      if |d| < 12 || |d| != 12 + Word(d, 2) then Corrupt else GetObject(d[12..])
    else if kind == DQM_REPLY_LIST_BEGIN then
      if |d| != 16 then Corrupt else ListBegin(Word(d, 3) != 0)
    else if kind == DQM_REPLY_LIST_END then
      if |d| != 16 then Corrupt else ListEnd(Word(d, 3) != 0)
    else if kind == DQM_REPLY_OBJECT then
      if |d| < 36 then Corrupt else DecodeObject(d)
    else if kind == DQM_REPLY_NONE then
      if |d| < 12 || |d| != 12 + Word(d, 2) then Corrupt else NoneReply(d[12..])
    else
      Corrupt
  }

  // ----- round trips

  /** The frame's own length word, which delimits it in the byte stream. */
  predicate Framed(d: Blob) {
    8 <= |d| < MESSAGE_SIZE_LIMIT && Word(d, 0) == |d|
  }

  lemma FramedLong(d: Blob)
    requires Framed(d)
    ensures |d| >= 8
  {
  }

  lemma DecodeEncodeObject(o: Object, data: bool)
    requires |EncodeObject(o, data)| < MESSAGE_SIZE_LIMIT
    ensures Framed(EncodeObject(o, data))
    ensures Decode(EncodeObject(o, data)) ==
      ObjectReply(o.flags.(dead := false), o.version, o.tag, FullName(o), SentData(o, data), o.qdata)
  {
    hide FullName, SentData;
    var d := EncodeObject(o, data);
    WordsOfHeader(o, data);
    PartsOf(Words(ObjectHeader(o, data)), FullName(o), SentData(o, data), o.qdata);
    hide EncodeObject, Words;
    FlagsOfWord(o.flags.(dead := false));
  }

  lemma WordsOfHeader(o: Object, data: bool)
    requires |EncodeObject(o, data)| < MESSAGE_SIZE_LIMIT
    ensures forall i: nat | i < 9 :: Word(EncodeObject(o, data), i) == ObjectHeader(o, data)[i]
  {
    hide FullName, SentData;
    var ws, rest := ObjectHeader(o, data), FullName(o) + SentData(o, data) + o.qdata;
    forall i: nat | i < 9
      ensures Word(EncodeObject(o, data), i) == ws[i]
    {
      WordAtWords(ws, rest, i);
    }
  }

  lemma PartsOf(h: Blob, a: Blob, b: Blob, c: Blob)
    ensures var d := h + (a + b + c);
      && d[|h|..|h| + |a|] == a && d[|h| + |a|..|h| + |a| + |b|] == b && d[|h| + |a| + |b|..] == c
  {
  }

  lemma DecodeEncodeGet(name: Blob)
    requires 12 + |name| < MESSAGE_SIZE_LIMIT
    ensures Framed(EncodeGet(name)) && Decode(EncodeGet(name)) == GetObject(name)
  {
    WordsOfShort(12 + |name|, DQM_MSG_GET_OBJECT, |name|, name);
  }

  lemma DecodeEncodeNone(name: Blob)
    requires 12 + |name| < MESSAGE_SIZE_LIMIT
    ensures Framed(EncodeNone(name)) && Decode(EncodeNone(name)) == NoneReply(name)
  {
    WordsOfShort(12 + |name|, DQM_REPLY_NONE, |name|, name);
  }

  lemma WordsOfShort(w0: Word32, w1: Word32, w2: Word32, rest: Blob)
    ensures var d := Words([w0, w1, w2]) + rest;
      Word(d, 0) == w0 && Word(d, 1) == w1 && Word(d, 2) == w2 && d[12..] == rest
  {
    WordAtWords([w0, w1, w2], rest, 0);
    WordAtWords([w0, w1, w2], rest, 1);
    WordAtWords([w0, w1, w2], rest, 2);
  }

  lemma DecodeEncodeList(n: nat, full: bool)
    ensures Framed(EncodeListBegin(n, full)) && Decode(EncodeListBegin(n, full)) == ListBegin(full)
    ensures Framed(EncodeListEnd(n, full)) && Decode(EncodeListEnd(n, full)) == ListEnd(full)
  {
    WordsOfList(DQM_REPLY_LIST_BEGIN, n, full);
    WordsOfList(DQM_REPLY_LIST_END, n, full);
  }

  lemma WordsOfList(kind: Word32, n: nat, full: bool)
    ensures var d := Words([16, kind, n, if full then 1 else 0]);
      Word(d, 0) == 16 && Word(d, 1) == kind && Word(d, 3) == if full then 1 else 0
  {
    var ws := [16, kind, n, if full then 1 else 0];
    assert Words(ws) + [] == Words(ws);
    WordAtWords(ws, [], 0);
    WordAtWords(ws, [], 1);
    WordAtWords(ws, [], 3);
  }
}
