/** The bit-level view that the patricia tree has of a string. */
module StringBits {
  import opened Bytes

  const CHAR_BIT := 8

  function Pow2(k: nat): (p: nat)
    requires k < CHAR_BIT
  {
    match k
    case 0 => 1
    case 1 => 2
    case 2 => 4
    case 3 => 8
    case 4 => 16
    case 5 => 32
    case 6 => 64
    case 7 => 128
  }

  /** Bit k of a byte, counted from the left: a shift and a one-bit mask. */
  function BitOf(b: Byte, k: nat): (bit: nat)
    requires k < CHAR_BIT
    ensures bit < 2
  {
    b / Pow2(CHAR_BIT - k - 1) % 2
  }

  /** Character k of a string padded with infinitely many NULs. */
  function CharAt(s: Blob, k: nat): Byte {
    if k < |s| then s[k] else 0
  }

  /** StringAtomTree::bits with n = 1, which may read the terminating NUL and
      nothing beyond. */
  function Bits(s: Blob, maxbit: nat, from: nat): nat
    requires from > maxbit || from / CHAR_BIT <= |s|
  {
    if from > maxbit then 0 else BitOf(CharAt(s, from / CHAR_BIT), from % CHAR_BIT)
  }

  /** Bit i of the string padded with infinitely many NULs. */
  function Bit(s: Blob, i: nat): (bit: nat)
    ensures bit < 2
  {
    if i / CHAR_BIT < |s| then BitOf(s[i / CHAR_BIT], i % CHAR_BIT) else 0
  }

  /** The maxbit stored for a string: the root's empty string has 0. */
  function MaxBit(s: Blob): nat {
    if s == [] then 0 else |s| * CHAR_BIT - 1
  }

  lemma BitsIsBit(s: Blob, from: nat)
    ensures from > MaxBit(s) || from / CHAR_BIT <= |s|
    ensures Bits(s, MaxBit(s), from) == Bit(s, from)
  {
  }

  ghost predicate Agree(a: Blob, b: Blob, n: nat) {
    forall i: nat | i < n :: Bit(a, i) == Bit(b, i)
  }

  ghost predicate SameBits(a: Blob, b: Blob) {
    forall i: nat :: Bit(a, i) == Bit(b, i)
  }

  /** The string without its trailing NULs. */
  function Strip(s: Blob): Blob {
    if s != [] && s[|s| - 1] == 0 then Strip(s[..|s| - 1]) else s
  }

  lemma HalveByte(a: Byte, n: nat)
    requires n + 1 < CHAR_BIT
    ensures a / Pow2(n) == 2 * (a / Pow2(n + 1)) + a / Pow2(n) % 2
  {
    match n
    case 0 =>
    case 1 =>
    case 2 =>
    case 3 =>
    case 4 =>
    case 5 =>
    case 6 =>
  }

  lemma {:induction false} HighBitsDetermine(a: Byte, b: Byte, n: nat)
    requires n < CHAR_BIT
    requires forall k: nat | k < CHAR_BIT :: BitOf(a, k) == BitOf(b, k)
    ensures a / Pow2(n) == b / Pow2(n)
    decreases CHAR_BIT - n
  {
    assert BitOf(a, CHAR_BIT - 1 - n) == BitOf(b, CHAR_BIT - 1 - n);
    if n + 1 < CHAR_BIT {
      HighBitsDetermine(a, b, n + 1);
      HalveByte(a, n);
      HalveByte(b, n);
    }
  }

  lemma BitsDetermineByte(a: Byte, b: Byte)
    requires forall k: nat | k < CHAR_BIT :: BitOf(a, k) == BitOf(b, k)
    ensures a == b
  {
    HighBitsDetermine(a, b, 0);
  }

  lemma SameBitsSameChars(a: Blob, b: Blob, k: nat)
    requires SameBits(a, b)
    ensures CharAt(a, k) == CharAt(b, k)
  {
    forall j: nat | j < CHAR_BIT
      ensures BitOf(CharAt(a, k), j) == BitOf(CharAt(b, k), j)
    {
      var i := k * CHAR_BIT + j;
      assert i / CHAR_BIT == k && i % CHAR_BIT == j;
      assert Bit(a, i) == Bit(b, i);
      assert BitOf(0, j) == 0;
      assert Bit(a, i) == BitOf(CharAt(a, k), j);
      assert Bit(b, i) == BitOf(CharAt(b, k), j);
    }
    BitsDetermineByte(CharAt(a, k), CharAt(b, k));
  }

  lemma {:induction false} StripKeepsBits(s: Blob)
    ensures SameBits(s, Strip(s))
  {
    if s != [] && s[|s| - 1] == 0 {
      var t := s[..|s| - 1];
      forall i: nat
        ensures Bit(s, i) == Bit(t, i)
      {
        assert i / CHAR_BIT == |s| - 1 ==> Bit(s, i) == BitOf(0, i % CHAR_BIT) == 0;
      }
      StripKeepsBits(t);
      forall i: nat
        ensures Bit(s, i) == Bit(Strip(s), i)
      {
        assert Bit(s, i) == Bit(t, i);
      }
    }
  }

  lemma {:induction false} StripLast(s: Blob)
    ensures Strip(s) != [] ==> Strip(s)[|Strip(s)| - 1] != 0
  {
    if s != [] && s[|s| - 1] == 0 {
      StripLast(s[..|s| - 1]);
    }
  }

  lemma StrippedUnequalLengths(a: Blob, b: Blob)
    requires SameBits(a, b)
    requires b != [] ==> b[|b| - 1] != 0
    ensures |b| <= |a|
  {
    if |a| < |b| {
      SameBitsSameChars(a, b, |b| - 1);
    }
  }

  /** The tree cannot tell two strings apart iff they differ in trailing NULs only. */
  lemma {:induction false} SameBitsIffSameStrip(a: Blob, b: Blob)
    ensures SameBits(a, b) <==> Strip(a) == Strip(b)
  {
    StripKeepsBits(a);
    StripKeepsBits(b);
    if SameBits(a, b) {
      var x, y := Strip(a), Strip(b);
      forall i: nat
        ensures Bit(x, i) == Bit(y, i)
      {
        assert Bit(a, i) == Bit(x, i) && Bit(b, i) == Bit(y, i);
      }
      StripLast(a);
      StripLast(b);
      StrippedUnequalLengths(x, y);
      StrippedUnequalLengths(y, x);
      forall k: nat | k < |x|
        ensures x[k] == y[k]
      {
        SameBitsSameChars(x, y, k);
      }
      assert x == y;
    }
  }
}
