/** The wildcard matcher with fast paths (class fastmatch in DQMStore.cc). */
module FastMatches {
  datatype Matching = OneStarStart | OneStarEnd | TwoStar | UseFull

  /** The meaning of a pattern: * stands for any string, all else for itself. */
  predicate Glob(p: string, s: string)
    decreases |p| + |s|
  {
    if p == "" then s == ""
    else if p[0] == '*' then Glob(p[1..], s) || (s != "" && Glob(p, s[1..]))
    else s != "" && s[0] == p[0] && Glob(p[1..], s[1..])
  }

  function Stars(p: string): nat {
    if p == "" then 0 else Stars(p[..|p| - 1]) + if p[|p| - 1] == '*' then 1 else 0
  }

  lemma {:induction false} StarsConcat(a: string, b: string)
    ensures Stars(a + b) == Stars(a) + Stars(b)
  {
    if b == "" {
      assert a + b == a;
    } else {
      StarsConcat(a, b[..|b| - 1]);
      assert (a + b)[..|a + b| - 1] == a + b[..|b| - 1];
    }
  }

  lemma {:induction false} StarsFit(p: string)
    ensures Stars(p) <= |p|
  {
    if p != "" {
      StarsFit(p[..|p| - 1]);
    }
  }

  lemma {:induction false} NoStars(p: string)
    ensures Stars(p) == 0 <==> '*' !in p
  {
    if p != "" {
      NoStars(p[..|p| - 1]);
    }
  }

  /** The characters that keep a pattern from the fast paths. */
  predicate Special(c: char) {
    c == '"' || c == ']' || c == '?' || c == '\\'
  }

  predicate StartsWithStar(p: string) {
    p != "" && p[0] == '*'
  }

  predicate EndsWithStar(p: string) {
    p != "" && p[|p| - 1] == '*'
  }

  /** What the constructor decides on and the text it keeps. */
  function Choice(p: string): (Matching, string) {
    if (exists c | c in p :: Special(c)) || Stars(p) > 2 then (UseFull, p)
    else if Stars(p) == 1 && StartsWithStar(p) then (OneStarStart, p[1..])
    else if Stars(p) == 1 && EndsWithStar(p) then (OneStarEnd, p[..|p| - 1])
    else if Stars(p) == 2 && StartsWithStar(p) && EndsWithStar(p) then
      StarsFit(p);
      (TwoStar, p[1..|p| - 1])
    else (UseFull, p)
  }

  predicate At(x: string, s: string, i: nat) {
    i + |x| <= |s| && s[i..i + |x|] == x
  }

  /** x occurs in s; this is std::string::find. */
  predicate Occurs(x: string, s: string) {
    exists i | 0 <= i <= |s| :: At(x, s, i)
  }

  predicate HasSuffix(x: string, s: string) {
    |x| <= |s| && s[|s| - |x|..] == x
  }

  /** What a fast path answers. */
  predicate Fast(m: Matching, x: string, s: string) {
    match m
    case OneStarStart => HasSuffix(x, s)
    case OneStarEnd => x <= s
    case TwoStar => Occurs(x, s)
    case UseFull => false
  }

  // ----- the fast paths mean what the pattern means

  lemma {:induction false} GlobLiteral(x: string, s: string)
    requires '*' !in x
    ensures Glob(x, s) <==> x == s
  {
    if x != "" && s != "" {
      GlobLiteral(x[1..], s[1..]);
      assert x == [x[0]] + x[1..] && s == [s[0]] + s[1..];
    }
  }

  lemma {:induction false} GlobAny(s: string)
    ensures Glob("*", s)
    decreases |s|
  {
    assert "*"[1..] == "";
    if s != "" {
      GlobAny(s[1..]);
    }
  }

  lemma {:induction false} GlobPrefix(x: string, s: string)
    requires '*' !in x
    ensures Glob(x + "*", s) <==> x <= s
  {
    if x == "" {
      assert x + "*" == "*";
      GlobAny(s);
    } else if s != "" {
      assert (x + "*")[1..] == x[1..] + "*";
      GlobPrefix(x[1..], s[1..]);
      assert x == [x[0]] + x[1..] && s == [s[0]] + s[1..];
    }
  }

  lemma {:induction false} GlobSuffix(x: string, s: string)
    requires '*' !in x
    ensures Glob("*" + x, s) <==> HasSuffix(x, s)
    decreases |s|
  {
    assert ("*" + x)[1..] == x;
    GlobLiteral(x, s);
    if s != "" {
      GlobSuffix(x, s[1..]);
      if |x| < |s| {
        assert s[1..][|s[1..]| - |x|..] == s[|s| - |x|..];
      }
    }
  }

  lemma {:induction false} GlobInfix(x: string, s: string)
    requires '*' !in x
    ensures Glob("*" + x + "*", s) <==> Occurs(x, s)
    decreases |s|
  {
    var p := "*" + x + "*";
    assert p[1..] == x + "*";
    GlobPrefix(x, s);
    if s != "" {
      GlobInfix(x, s[1..]);
      OccursLater(x, s);
    } else {
      assert At(x, s, 0) <==> x <= s;
    }
  }

  lemma OccursLater(x: string, s: string)
    requires s != ""
    ensures Occurs(x, s) <==> x <= s || Occurs(x, s[1..])
  {
    assert At(x, s, 0) <==> x <= s;
    forall i: nat | i < |s|
      ensures At(x, s, i + 1) <==> At(x, s[1..], i)
    {
      if i + 1 + |x| <= |s| {
        assert s[1..][i..i + |x|] == s[i + 1..i + 1 + |x|];
      }
    }
    if Occurs(x, s) {
      var i :| 0 <= i <= |s| && At(x, s, i);
      assert i > 0 ==> At(x, s[1..], i - 1);
    }
    if Occurs(x, s[1..]) {
      var i :| 0 <= i <= |s[1..]| && At(x, s[1..], i);
      assert At(x, s, i + 1);
    }
  }

  /** Whenever a fast path is chosen, it answers what the pattern means. */
  lemma FastIsGlob(p: string, s: string)
    requires Choice(p).0 != UseFull
    ensures Fast(Choice(p).0, Choice(p).1, s) <==> Glob(p, s)
  {
    var x := Choice(p).1;
    NoStars(x);
    match Choice(p).0
    case OneStarStart =>
      assert p == "*" + x;
      StarsConcat("*", x);
      GlobSuffix(x, s);
    case OneStarEnd =>
      assert p == x + "*";
      StarsConcat(x, "*");
      GlobPrefix(x, s);
    case TwoStar =>
      StarsFit(p);
      assert p == "*" + x + "*";
      StarsConcat("*" + x, "*");
      StarsConcat("*", x);
      GlobInfix(x, s);
  }

  predicate Plain(x: string) {
    forall c | c in x :: c !in ['*', '"', ']', '?', '\\']
  }

  /** One star at an end or one at each end, around a plain text. */
  predicate FastShape(p: string) {
    || (p != "" && p[0] == '*' && Plain(p[1..]))
    || (p != "" && p[|p| - 1] == '*' && Plain(p[..|p| - 1]))
    || (|p| >= 2 && p[0] == '*' && p[|p| - 1] == '*' && Plain(p[1..|p| - 1]))
  }

  lemma StarFirst(p: string)
    requires StartsWithStar(p)
    ensures Stars(p) == 1 + Stars(p[1..])
  {
    assert p == "*" + p[1..];
    assert "*"[..0] == "";
    StarsConcat("*", p[1..]);
  }

  lemma PlainIff(x: string)
    ensures Plain(x) <==> Stars(x) == 0 && !exists c | c in x :: Special(c)
  {
    NoStars(x);
  }

  lemma SpecialOutside(p: string, x: string)
    requires forall c :: c in p <==> c in x || c == '*'
    ensures (exists c | c in p :: Special(c)) <==> exists c | c in x :: Special(c)
  {
  }

  /** Which patterns get a fast path. */
  lemma FastIff(p: string)
    ensures Choice(p).0 != UseFull <==> FastShape(p)
  {
    StarsFit(p);
    if StartsWithStar(p) {
      StarFirst(p);
      PlainIff(p[1..]);
      SpecialOutside(p, p[1..]);
      if EndsWithStar(p) && |p| >= 2 {
        var x := p[1..|p| - 1];
        assert p[1..][..|p| - 2] == x;
        assert Stars(p[1..]) == Stars(x) + 1;
        PlainIff(x);
        SpecialOutside(p, x);
      }
    }
    if EndsWithStar(p) {
      PlainIff(p[..|p| - 1]);
      SpecialOutside(p, p[..|p| - 1]);
    }
    hide Plain, Special, Stars;
  }

  // ----- the class

  class FastMatch {
    var fastString: string
    var matching: Matching

    constructor (p: string)
      ensures (matching, fastString) == Choice(p)
    {
      fastString, matching := p, UseFull;
      new;
      var starCount := CountStars(p);
      if '"' in p || ']' in p || '?' in p || '\\' in p || starCount > 2 {
        return;
      }
      if starCount == 1 {
        if StartsWithStar(fastString) {
          matching := OneStarStart;
          fastString := fastString[1..];
          return;
        }
        if EndsWithStar(fastString) {
          matching := OneStarEnd;
          fastString := fastString[..|fastString| - 1];
          return;
        }
      }
      if starCount == 2 {
        if StartsWithStar(fastString) && EndsWithStar(fastString) {
          StarsFit(p);
          matching := TwoStar;
          fastString := fastString[1..];
          fastString := fastString[..|fastString| - 1];
          assert fastString == p[1..|p| - 1];
          return;
        }
      }
    }

    static method CountStars(p: string) returns (n: nat)
      ensures n == Stars(p)
    {
      n := 0;
      var pos := 0;
      while pos < |p|
        invariant 0 <= pos <= |p| && n == Stars(p[..pos])
      {
        assert p[..pos + 1][..pos] == p[..pos];
        if p[pos] == '*' {
          n := n + 1;
        }
        pos := pos + 1;
      }
      assert p[..pos] == p;
    }

    /** compare_strings_reverse: compare from the back. */
    static method CompareStringsReverse(pattern: string, input: string) returns (r: bool)
      ensures r <==> HasSuffix(pattern, input)
    {
      if |input| < |pattern| {
        return false;
      }
      var n := 0;
      while n < |pattern|
        invariant 0 <= n <= |pattern|
        invariant input[|input| - n..] == pattern[|pattern| - n..]
      {
        if pattern[|pattern| - 1 - n] != input[|input| - 1 - n] {
          assert input[|input| - |pattern|..][|pattern| - 1 - n] == input[|input| - 1 - n];
          return false;
        }
        n := n + 1;
      }
      return true;
    }

    /** compare_strings: compare from the front. */
    static method CompareStrings(pattern: string, input: string) returns (r: bool)
      ensures r <==> pattern <= input
    {
      if |input| < |pattern| {
        return false;
      }
      var n := 0;
      while n < |pattern|
        invariant 0 <= n <= |pattern|
        invariant pattern[..n] == input[..n]
      {
        if pattern[n] != input[n] {
          return false;
        }
        n := n + 1;
      }
      return true;
    }

    /** match(): full is what the regular expression would answer. */
    method Match(s: string, full: bool) returns (r: bool)
      ensures r == if matching == UseFull then full else Fast(matching, fastString, s)
    {
      match matching
      case OneStarStart => r := CompareStringsReverse(fastString, s);
      case OneStarEnd => r := CompareStrings(fastString, s);
      case TwoStar => r := Occurs(fastString, s);
      case UseFull => r := full;
    }

    /** A matcher made from a pattern answers what the pattern means, on every
        input, provided that the regular expression does where it is used. */
    static method Matches(p: string, s: string, full: bool) returns (r: bool)
      requires Choice(p).0 == UseFull ==> (full <==> Glob(p, s))
      ensures r <==> Glob(p, s)
    {
      var m := new FastMatch(p);
      r := m.Match(s, full);
      if Choice(p).0 != UseFull {
        FastIsGlob(p, s);
      }
    }
  }
}
