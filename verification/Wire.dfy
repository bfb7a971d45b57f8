/** Words, flags and the frames that peers exchange. */
module Wire {
  import opened Bytes

  type Word32 = x: int | 0 <= x < 0x1_0000_0000
  type Word64 = x: int | 0 <= x < 0x1_0000_0000_0000_0000

  // ----- little-endian words

  function Pow256(n: nat): (p: nat)
    ensures p > 0
  {
    if n == 0 then 1 else 256 * Pow256(n - 1)
  }

  /** The n low bytes of w, as memcpy lays them out; higher bytes are cut off. */
  function Put(w: nat, n: nat): (d: Blob)
    ensures |d| == n
  {
    if n == 0 then [] else [w % 256] + Put(w / 256, n - 1)
  }

  function Get(d: Blob): nat {
    if d == [] then 0 else d[0] + 256 * Get(d[1..])
  }

  lemma {:induction false} GetPut(w: nat, n: nat)
    requires w < Pow256(n)
    ensures Get(Put(w, n)) == w
  {
    if n > 0 {
      GetPut(w / 256, n - 1);
      assert Put(w, n)[1..] == Put(w / 256, n - 1);
    }
  }

  function Put32(w: nat): (d: Blob)
    ensures |d| == 4
  {
    Put(w, 4)
  }

  lemma GetPut32(w: Word32)
    ensures Get(Put32(w)) == w
  {
    assert Pow256(4) == 0x1_0000_0000;
    GetPut(w, 4);
  }

  /** The least significant byte comes first. */
  lemma Put32Bytes(w: Word32)
    ensures Put32(w) == [w % 256, w / 0x100 % 256, w / 0x1_0000 % 256, w / 0x100_0000]
  {
    var w1, w2, w3 := w / 256, w / 256 / 256, w / 256 / 256 / 256;
    assert w1 == w / 0x100 && w2 == w / 0x1_0000 && w3 == w / 0x100_0000 && w3 < 256;
    assert Put(w3, 1) == [w3] + Put(w3 / 256, 0);
    assert Put(w2, 2) == [w2 % 256] + Put(w3, 1);
    assert Put(w1, 3) == [w1 % 256] + Put(w2, 2);
    assert Put(w, 4) == [w % 256] + Put(w1, 3);
  }

  /** Consecutive words, as copydata(msg, words, sizeof(words)) appends them. */
  function Words(ws: seq<nat>): (d: Blob)
    ensures |d| == 4 * |ws|
  {
    if ws == [] then [] else Put32(ws[0]) + Words(ws[1..])
  }

  /** Word i of a buffer. */
  function WordAt(d: Blob, i: nat): nat
    requires 4 * i + 4 <= |d|
  {
    Get(d[4 * i..4 * i + 4])
  }

  lemma {:induction false} WordAtWords(ws: seq<nat>, rest: Blob, i: nat)
    requires i < |ws| && ws[i] < 0x1_0000_0000
    ensures WordAt(Words(ws) + rest, i) == ws[i]
  {
    var d := Words(ws) + rest;
    if i == 0 {
      assert d[0..4] == Put32(ws[0]);
      GetPut32(ws[0]);
    } else {
      WordAtWords(ws[1..], rest, i - 1);
      assert d[4 * i..4 * i + 4] == (Words(ws[1..]) + rest)[4 * (i - 1)..4 * (i - 1) + 4];
    }
  }

  // ----- object flags

  type Low = x: int | 0 <= x < 0x1_0000
  type High = x: int | 0 <= x < 0x800

  /** A uint32_t of object flags, bit by bit where the protocol sets and tests
      single bits: NEW is bit 16, then RECEIVED, LUMI, DEAD and STALE. */
  datatype Flags = Flags(low: Low, isNew: bool, received: bool, lumi: bool, dead: bool, stale: bool, high: High) {
    /** (flags & DQM_PROP_TYPE_MASK) <= DQM_PROP_TYPE_SCALAR. */
    predicate IsScalar() {
      low % 0x100 <= 0x0f
    }

    function Word(): Word32 {
      low + 0x1_0000 * (B(isNew) + 2 * (B(received) + 2 * (B(lumi) + 2 * (B(dead) + 2 * (B(stale) + 2 * high)))))
    }
  }

  const NoFlags := Flags(0, false, false, false, false, false, 0)

  function B(b: bool): nat {
    if b then 1 else 0
  }

  function FlagsOf(w: Word32): Flags {
    var u := w / 0x1_0000;
    Flags(w % 0x1_0000, u % 2 == 1, u / 2 % 2 == 1, u / 2 / 2 % 2 == 1, u / 2 / 2 / 2 % 2 == 1,
      u / 2 / 2 / 2 / 2 % 2 == 1, u / 2 / 2 / 2 / 2 / 2)
  }

  lemma Halve(u: nat, q: nat, b: bool)
    requires u == B(b) + 2 * q
    ensures u / 2 == q && (u % 2 == 1) == b
  {
  }

  lemma LowHalf(w: nat, q: nat, r: nat)
    requires w == r + 0x1_0000 * q && r < 0x1_0000
    ensures w / 0x1_0000 == q && w % 0x1_0000 == r
  {
  }

  /** Taking the word apart undoes putting it together. */
  lemma FlagsOfWord(f: Flags)
    ensures FlagsOf(f.Word()) == f
  {
    var u5: nat := f.high;
    var u4: nat := B(f.stale) + 2 * u5;
    var u3: nat := B(f.dead) + 2 * u4;
    var u2: nat := B(f.lumi) + 2 * u3;
    var u1: nat := B(f.received) + 2 * u2;
    var u0: nat := B(f.isNew) + 2 * u1;
    LowHalf(f.Word(), u0, f.low);
    Halve(u0, u1, f.isNew);
    Halve(u1, u2, f.received);
    Halve(u2, u3, f.lumi);
    Halve(u3, u4, f.dead);
    Halve(u4, u5, f.stale);
  }
}
