/** Natural comparison of strings: numbers by value, before text. */
module NatSort {
  /** Plain chars are signed. */
  type Char = x: int | -128 <= x < 128

  type Text = seq<Char>

  const DIGIT_0: Char := 48
  const PLUS: Char := 43
  const MINUS: Char := 45

  const LLONG_MAX := 0x7FFF_FFFF_FFFF_FFFF
  const LLONG_MIN := -0x8000_0000_0000_0000

  predicate IsDigit(c: Char) {
    DIGIT_0 <= c < DIGIT_0 + 10
  }

  /** A C string: text without NUL. */
  predicate CString(s: Text) {
    0 !in s
  }

  /** The character at the front; the terminating NUL at the end. */
  function Head(s: Text): Char {
    if s == [] then 0 else s[0]
  }

  function Second(s: Text): Char {
    if |s| < 2 then 0 else s[1]
  }

  /** A number starts here: a digit, or a sign before a digit. */
  predicate AtNumber(s: Text) {
    IsDigit(Head(s)) || ((Head(s) == MINUS || Head(s) == PLUS) && IsDigit(Second(s)))
  }

  /** How many digits s starts with. */
  function DigitRun(s: Text): (n: nat)
    ensures n <= |s|
    ensures IsDigit(Head(s)) ==> n > 0
  {
    if s == [] || !IsDigit(s[0]) then 0 else 1 + DigitRun(s[1..])
  }

  function Digits(s: Text, v: nat): nat {
    if s == [] || !IsDigit(s[0]) then v else Digits(s[1..], 10 * v + (s[0] - DIGIT_0))
  }

  function Saturate(v: int): int {
    if v > LLONG_MAX then LLONG_MAX else if v < LLONG_MIN then LLONG_MIN else v
  }

  predicate Signed(s: Text) {
    Head(s) == MINUS || Head(s) == PLUS
  }

  /** strtoll in base 10 where a number starts: the value, and what follows it. */
  function Strtoll(s: Text): (r: (int, Text))
    requires AtNumber(s)
    ensures |r.1| < |s|
  {
    var d := if Signed(s) then s[1..] else s;
    var v: int := Digits(d, 0);
    (Saturate(if Head(s) == MINUS then 0 - v else v), d[DigitRun(d)..])
  }

  /** natcmp, one token of each string at a time. */
  function NatLess(a: Text, b: Text): bool
    decreases |a|
  {
    if a == [] || b == [] then a == [] && b != []
    else if AtNumber(a) != AtNumber(b) then AtNumber(a)
    else if AtNumber(a) then
      var (x, a') := Strtoll(a);
      var (y, b') := Strtoll(b);
      if x != y then x < y else NatLess(a', b')
    else if a[0] != b[0] then a[0] < b[0]
    else NatLess(a[1..], b[1..])
  }

  // ----- tokens

  datatype Token = Number(value: int) | Letter(c: Char)

  function Tokens(s: Text): seq<Token>
    decreases |s|
  {
    if s == [] then []
    else if AtNumber(s) then
      var (v, rest) := Strtoll(s);
      [Number(v)] + Tokens(rest)
    else [Letter(s[0])] + Tokens(s[1..])
  }

  /** Numbers before letters, each kind by value. */
  predicate TokenLess(x: Token, y: Token) {
    match (x, y)
    case (Number(v), Number(w)) => v < w
    case (Number(_), Letter(_)) => true
    case (Letter(_), Number(_)) => false
    case (Letter(c), Letter(d)) => c < d
  }

  /** Lexicographic order: a proper prefix comes first. */
  predicate Lexicographic(x: seq<Token>, y: seq<Token>) {
    y != [] && (x == [] || TokenLess(x[0], y[0]) || (x[0] == y[0] && Lexicographic(x[1..], y[1..])))
  }

  /** natcmp is the lexicographic order of the token lists. */
  lemma {:induction false} NatLessIsLexicographic(a: Text, b: Text)
    ensures NatLess(a, b) <==> Lexicographic(Tokens(a), Tokens(b))
    decreases |a|
  {
    if a != [] && b != [] && AtNumber(a) == AtNumber(b) {
      var x, y := Tokens(a), Tokens(b);
      var a' := if AtNumber(a) then Strtoll(a).1 else a[1..];
      var b' := if AtNumber(b) then Strtoll(b).1 else b[1..];
      hide Strtoll;
      assert x[1..] == Tokens(a') && y[1..] == Tokens(b');
      NatLessIsLexicographic(a', b');
    }
  }

  lemma {:induction false} LexicographicTotal(x: seq<Token>, y: seq<Token>)
    ensures !(Lexicographic(x, y) && Lexicographic(y, x))
    ensures !Lexicographic(x, y) && !Lexicographic(y, x) <==> x == y
    decreases |x|
  {
    if x != [] && y != [] && x[0] == y[0] {
      LexicographicTotal(x[1..], y[1..]);
      assert x == [x[0]] + x[1..] && y == [y[0]] + y[1..];
    }
  }

  lemma {:induction false} LexicographicTransitive(x: seq<Token>, y: seq<Token>, z: seq<Token>)
    requires Lexicographic(x, y) && Lexicographic(y, z)
    ensures Lexicographic(x, z)
    decreases |x|
  {
    if x != [] && x[0] == y[0] && y[0] == z[0] {
      LexicographicTransitive(x[1..], y[1..], z[1..]);
    }
  }

  predicate Incomparable(a: Text, b: Text) {
    !NatLess(a, b) && !NatLess(b, a)
  }

  /** Strings are incomparable iff they consist of the same tokens. */
  lemma IncomparableIff(a: Text, b: Text)
    ensures Incomparable(a, b) <==> Tokens(a) == Tokens(b)
  {
    NatLessIsLexicographic(a, b);
    NatLessIsLexicographic(b, a);
    LexicographicTotal(Tokens(a), Tokens(b));
  }

  /** A strict weak order, as std::sort needs: irreflexive, transitive, and with
      transitive incomparability. */
  lemma StrictWeakOrder(a: Text, b: Text, c: Text)
    ensures !NatLess(a, a)
    ensures NatLess(a, b) && NatLess(b, c) ==> NatLess(a, c)
    ensures Incomparable(a, b) && Incomparable(b, c) ==> Incomparable(a, c)
  {
    IncomparableIff(a, a);
    IncomparableIff(a, b);
    IncomparableIff(b, c);
    IncomparableIff(a, c);
    NatLessIsLexicographic(a, b);
    NatLessIsLexicographic(b, c);
    NatLessIsLexicographic(a, c);
    hide NatLess, Tokens;
    if NatLess(a, b) && NatLess(b, c) {
      LexicographicTransitive(Tokens(a), Tokens(b), Tokens(c));
    }
  }

  /** Different strings can be incomparable: a plus sign or a zero before a
      number makes no difference. */
  lemma NotATotalOrder(s: Text)
    requires IsDigit(Head(s))
    ensures Incomparable(s, [PLUS] + s) && Incomparable(s, [DIGIT_0] + s)
  {
    hide Digits, DigitRun;
    var p, z: Text := [PLUS] + s, [DIGIT_0] + s;
    assert p[1..] == s && z[1..] == s;
    ZeroFirst(s);
    assert Strtoll(p) == Strtoll(s) == Strtoll(z);
    hide Strtoll;
    IncomparableIff(s, p);
    IncomparableIff(s, z);
  }

  lemma ZeroFirst(s: Text)
    ensures var z: Text := [DIGIT_0] + s;
      && Digits(z, 0) == Digits(s, 0) && DigitRun(z) == 1 + DigitRun(s)
      && z[DigitRun(z)..] == s[DigitRun(s)..]
  {
    var z: Text := [DIGIT_0] + s;
    assert z[1..] == s;
  }

  // ----- decimal numbers

  /** "%d" for a number that is not negative. */
  function Decimal(n: nat): (s: Text)
    ensures s != []
  {
    (if n < 10 then [] else Decimal(n / 10)) + [48 + n % 10]
  }

  /** No more digits follow. */
  predicate NumberEnds(rest: Text) {
    rest == [] || rest[0] < 48 || rest[0] > 57
  }

  lemma {:induction false} DecimalIsDigits(n: nat)
    ensures forall c | c in Decimal(n) :: IsDigit(c)
  {
    if n >= 10 {
      DecimalIsDigits(n / 10);
    }
  }

  lemma {:induction false} DigitsConcat(s: Text, t: Text, v: nat)
    requires forall c | c in s :: IsDigit(c)
    ensures Digits(s + t, v) == Digits(t, Digits(s, v)) && DigitRun(s + t) == |s| + DigitRun(t)
  {
    if s == [] {
      assert s + t == t;
    } else {
      assert s[0] in s && (s + t)[0] == s[0] && (s + t)[1..] == s[1..] + t;
      DigitsConcat(s[1..], t, 10 * v + (s[0] - DIGIT_0));
    }
  }

  lemma {:induction false} DigitsOfDecimal(n: nat)
    ensures Digits(Decimal(n), 0) == n
  {
    var last: Text := [48 + n % 10];
    assert last[1..] == [];
    if n < 10 {
      assert Decimal(n) == last;
    } else {
      DigitsOfDecimal(n / 10);
      DecimalIsDigits(n / 10);
      DigitsConcat(Decimal(n / 10), last, 0);
    }
  }

  /** A decimal number is read back with the base 10, saturated, and up to where
      its digits end. */
  lemma StrtollReads(n: nat, rest: Text)
    requires NumberEnds(rest)
    ensures var s := Decimal(n) + rest;
      && AtNumber(s) && AtNumber([43] + s) && AtNumber([45] + s)
      && Strtoll(s) == (if n <= 0x7FFF_FFFF_FFFF_FFFF then n else 0x7FFF_FFFF_FFFF_FFFF, rest)
      && Strtoll([43] + s) == Strtoll(s)
      && Strtoll([45] + s) == (if n <= 0x8000_0000_0000_0000 then 0 - n else -0x8000_0000_0000_0000, rest)
  {
    hide Decimal;
    var d, s := Decimal(n), Decimal(n) + rest;
    DecimalIsDigits(n);
    DigitsOfDecimal(n);
    DigitsConcat(d, rest, 0);
    assert d[0] in d && s[0] == d[0];
    assert s[|d|..] == rest && ([43] + s)[1..] == s && ([45] + s)[1..] == s;
  }

  /** p ends neither in a digit nor in a sign, so that no number runs on from it
      into what follows. */
  predicate Closed(p: Text) {
    p != [] ==> var c := p[|p| - 1]; !(48 <= c <= 57) && c != 43 && c != 45
  }

  lemma {:induction false} DigitsStop(p: Text, t: Text, v: nat)
    requires p != [] && Closed(p)
    ensures Digits(p + t, v) == Digits(p, v) && DigitRun(p + t) == DigitRun(p) < |p|
  {
    if IsDigit(p[0]) {
      assert (p + t)[1..] == p[1..] + t;
      DigitsStop(p[1..], t, 10 * v + (p[0] - DIGIT_0));
    }
  }

  lemma StartInside(p: Text, t: Text)
    requires p != [] && Closed(p)
    ensures AtNumber(p + t) == AtNumber(p) && Signed(p + t) == Signed(p)
  {
  }

  lemma SliceInside(d: Text, t: Text, n: nat)
    requires n < |d| && Closed(d)
    ensures (d + t)[n..] == d[n..] + t && Closed(d[n..])
  {
  }

  lemma NumberInside(p: Text, t: Text)
    requires p != [] && Closed(p)
    ensures AtNumber(p + t) == AtNumber(p)
    ensures AtNumber(p) ==>
      var (v, rest) := Strtoll(p); Closed(rest) && Strtoll(p + t) == (v, rest + t)
  {
    StartInside(p, t);
    if AtNumber(p) {
      var d := if Signed(p) then p[1..] else p;
      assert d != [] && Closed(d);
      assert (if Signed(p + t) then (p + t)[1..] else p + t) == d + t;
      hide Digits, DigitRun, Closed;
      DigitsStop(d, t, 0);
      SliceInside(d, t, DigitRun(d));
    }
  }

  /** A common beginning makes no difference. */
  lemma {:induction false} PrefixIgnored(p: Text, t: Text, u: Text)
    requires Closed(p)
    ensures NatLess(p + t, p + u) == NatLess(t, u)
    decreases |p|
  {
    if p == [] {
      assert p + t == t && p + u == u;
    } else {
      NumberInside(p, t);
      NumberInside(p, u);
      hide Strtoll;
      if AtNumber(p) {
        PrefixIgnored(Strtoll(p).1, t, u);
      } else {
        assert (p + t)[1..] == p[1..] + t && (p + u)[1..] == p[1..] + u;
        PrefixIgnored(p[1..], t, u);
      }
    }
  }

  /** After a common beginning two numbers compare by value. */
  lemma NumbersByValue(p: Text, m: nat, n: nat, x: Text, y: Text)
    requires Closed(p) && m <= 0x7FFF_FFFF_FFFF_FFFF && n <= 0x7FFF_FFFF_FFFF_FFFF
    requires NumberEnds(x) && NumberEnds(y)
    ensures NatLess(p + (Decimal(m) + x), p + (Decimal(n) + y)) <==> if m != n then m < n else NatLess(x, y)
    ensures NatLess(p + ([45] + (Decimal(m) + x)), p + ([45] + (Decimal(n) + y))) <==>
            if m != n then m > n else NatLess(x, y)
  {
    hide Decimal, Strtoll;
    PrefixIgnored(p, Decimal(m) + x, Decimal(n) + y);
    PrefixIgnored(p, [45] + (Decimal(m) + x), [45] + (Decimal(n) + y));
    StrtollReads(m, x);
    StrtollReads(n, y);
  }

  /** Text, including a sign that no digit follows, compares character by
      character, numbers come before text, and the end of a string comes first. */
  lemma TextByCharacter(p: Text, c: Char, d: Char, n: nat, x: Text, y: Text)
    requires Closed(p) && !(48 <= c <= 57) && !(48 <= d <= 57)
    requires (c in {43, 45} ==> NumberEnds(x)) && (d in {43, 45} ==> NumberEnds(y))
    ensures NatLess(p + ([c] + x), p + ([d] + y)) <==> if c != d then c < d else NatLess(x, y)
    ensures NatLess(p + (Decimal(n) + y), p + ([c] + x)) && !NatLess(p + ([c] + x), p + (Decimal(n) + y))
    ensures NatLess(p, p + ([c] + x)) && !NatLess(p + ([c] + x), p)
  {
    PrefixIgnored(p, [c] + x, [d] + y);
    PrefixIgnored(p, Decimal(n) + y, [c] + x);
    PrefixIgnored(p, [c] + x, Decimal(n) + y);
    PrefixIgnored(p, [], [c] + x);
    PrefixIgnored(p, [c] + x, []);
    assert p + [] == p;
    DecimalIsDigits(n);
    hide Decimal, Strtoll;
    assert (Decimal(n) + y)[0] == Decimal(n)[0] && Decimal(n)[0] in Decimal(n);
    assert ([c] + x)[1..] == x && ([d] + y)[1..] == y;
  }

  // ----- the loop

  method NatCmp(s: Text, t: Text) returns (less: bool)
    requires CString(s) && CString(t)
    ensures less == NatLess(s, t)
  {
    hide Strtoll;
    var a, b := s, t;
    while Head(a) != 0 && Head(b) != 0
      invariant CString(a) && CString(b)
      invariant NatLess(a, b) == NatLess(s, t)
      decreases |a|
    {
      var anum := IsDigit(Head(a)) || ((Head(a) == MINUS || Head(a) == PLUS) && IsDigit(Second(a)));
      var bnum := IsDigit(Head(b)) || ((Head(b) == MINUS || Head(b) == PLUS) && IsDigit(Second(b)));
      if anum != bnum {
        return anum;
      }
      if anum && bnum {
        SuffixCString(a);
        SuffixCString(b);
        var (avalue, a') := Strtoll(a);
        var (bvalue, b') := Strtoll(b);
        a, b := a', b';
        if avalue != bvalue {
          return avalue < bvalue;
        }
        continue;
      }
      if Head(a) != Head(b) {
        return Head(a) < Head(b);
      }
      a, b := a[1..], b[1..];
    }
    less := Head(a) != Head(b) && Head(a) == 0;
  }

  lemma SuffixCString(s: Text)
    requires AtNumber(s) && CString(s)
    ensures CString(Strtoll(s).1)
  {
  }
}
