/** The quality reports packed into an object's qdata. */
module Quality {
  import opened Bytes

  const NUL: Byte := 0
  const ZERO: Byte := 48
  const PLUS: Byte := 43
  const MINUS: Byte := 45

  const STATUS_OK := 100
  const WARNING := 200
  const ERROR := 300

  /** A report. The test result is the text that sprintf prints for it. */
  datatype QValue = QValue(code: int, qtresult: Blob, qtname: Blob, algorithm: Blob, message: Blob)

  /** The DQM_PROP_REPORT_* bits of an object's flags. */
  datatype Report = Report(warn: bool, error: bool, other: bool) {
    function With(code: int): Report {
      if code == STATUS_OK then this
      else if code == WARNING then this.(warn := true)
      else if code == ERROR then this.(error := true)
      else this.(other := true)
    }
  }

  predicate NulFree(s: Blob) {
    NUL !in s
  }

  // ----- decimal numbers

  function Digits(n: nat): (s: Blob)
    ensures s != [] && forall k | 0 <= k < |s| :: ZERO <= s[k] < ZERO + 10
  {
    (if n < 10 then [] else Digits(n / 10)) + [ZERO + n % 10]
  }

  /** "%d". */
  function Itoa(n: int): Blob {
    if n < 0 then [MINUS] + Digits(-n) else Digits(n)
  }

  function Value(s: Blob): int
    requires forall k | 0 <= k < |s| :: ZERO <= s[k] < ZERO + 10
  {
    if s == [] then 0 else 10 * Value(s[..|s| - 1]) + (s[|s| - 1] - ZERO)
  }

  predicate IsDigit(b: Byte) {
    ZERO <= b < ZERO + 10
  }

  /** How many digits s starts with. */
  function DigitRun(s: Blob): (k: nat)
    ensures k <= |s| && forall i | 0 <= i < k :: IsDigit(s[i])
    ensures k < |s| ==> !IsDigit(s[k])
  {
    if s == [] || !IsDigit(s[0]) then 0 else 1 + DigitRun(s[1..])
  }

  /** isspace in the C locale. */
  predicate IsSpace(b: Byte) {
    b == 32 || 9 <= b <= 13
  }

  /** How much white space s starts with. */
  function SpaceRun(s: Blob): (k: nat)
    ensures k <= |s|
  {
    if s == [] || !IsSpace(s[0]) then 0 else 1 + SpaceRun(s[1..])
  }

  function Signed(s: Blob): int {
    if s != [] && s[0] == MINUS then 0 - Value(s[1..][..DigitRun(s[1..])])
    else if s != [] && s[0] == PLUS then Value(s[1..][..DigitRun(s[1..])])
    else Value(s[..DigitRun(s)])
  }

  /** atoi: white space, a sign and digits. */
  function Atoi(s: Blob): int {
    Signed(s[SpaceRun(s)..])
  }

  lemma {:induction false} ValueDigits(n: nat)
    ensures Value(Digits(n)) == n
  {
    if n >= 10 {
      ValueDigits(n / 10);
      assert Digits(n)[..|Digits(n)| - 1] == Digits(n / 10);
    } else {
      assert Digits(n)[..0] == [];
    }
  }

  lemma AllDigits(n: nat)
    ensures var d := Digits(n);
      DigitRun(d) == |d| && d[..|d|] == d && NulFree(d) && d != [] && IsDigit(d[0])
  {
    hide Digits, DigitRun;
  }

  /** No digit comes next. */
  predicate Ends(rest: Blob) {
    rest == [] || !(48 <= rest[0] <= 57)
  }

  lemma {:induction false} RunEnds(s: Blob, rest: Blob)
    requires (forall k | 0 <= k < |s| :: IsDigit(s[k])) && Ends(rest)
    ensures DigitRun(s + rest) == |s| && (s + rest)[..|s|] == s
  {
    if s == [] {
      assert s + rest == rest;
    } else {
      assert (s + rest)[1..] == s[1..] + rest;
      RunEnds(s[1..], rest);
    }
  }

  lemma SignedDigits(n: nat, rest: Blob)
    requires Ends(rest)
    ensures Signed(Digits(n) + rest) == n
    ensures Signed([43] + Digits(n) + rest) == n && Signed([45] + Digits(n) + rest) == 0 - n
  {
    hide Digits, DigitRun, Value;
    ValueDigits(n);
    AllDigits(n);
    RunEnds(Digits(n), rest);
    assert ([43] + Digits(n) + rest)[1..] == Digits(n) + rest;
    assert ([45] + Digits(n) + rest)[1..] == Digits(n) + rest;
  }

  lemma {:induction false} SpaceSkipped(blank: Blob, s: Blob)
    requires (forall b | b in blank :: IsSpace(b)) && (s == [] || !IsSpace(s[0]))
    ensures (blank + s)[SpaceRun(blank + s)..] == s
  {
    if blank == [] {
      assert blank + s == s;
    } else {
      SpaceSkipped(blank[1..], s);
      assert (blank + s)[1..] == blank[1..] + s;
    }
  }

  /** A printed code is read back, also after white space and before other text,
      and a plus sign in front of it makes no difference. */
  lemma AtoiReads(blank: Blob, n: int, rest: Blob)
    requires (forall b | b in blank :: b == 32 || 9 <= b <= 13) && Ends(rest)
    ensures Atoi(blank + (Itoa(n) + rest)) == n
    ensures n >= 0 ==> Atoi(blank + ([43] + Itoa(n) + rest)) == n
  {
    hide Digits, SpaceRun, Signed;
    var m: nat := if n < 0 then -n else n;
    SignedDigits(m, rest);
    AllDigits(m);
    SpaceSkipped(blank, Itoa(n) + rest);
    SpaceSkipped(blank, [43] + Itoa(n) + rest);
  }

  /** Text that is no number counts as zero. */
  lemma AtoiNone(blank: Blob, sign: Blob, rest: Blob)
    requires (forall b | b in blank :: b == 32 || 9 <= b <= 13) && sign in {[], [43], [45]} && Ends(rest)
    requires sign == [] ==> rest == [] || rest[0] !in {9, 10, 11, 12, 13, 32, 43, 45}
    ensures Atoi(blank + (sign + rest)) == 0
  {
    hide SpaceRun;
    assert [] + rest == rest;
    RunEnds([], rest);
    SpaceSkipped(blank, sign + rest);
    assert sign != [] ==> (sign + rest)[1..] == rest;
  }

  lemma ValueMore(s: Blob, d: nat)
    requires d < 10 && forall k | 0 <= k < |s| :: ZERO <= s[k] < ZERO + 10
    ensures Value(s + [48 + d]) == 10 * Value(s) + d
  {
    assert (s + [48 + d])[..|s|] == s;
  }

  lemma {:induction false} AllRun(s: Blob)
    requires forall k | 0 <= k < |s| :: IsDigit(s[k])
    ensures DigitRun(s) == |s|
  {
  }

  lemma SignedAll(s: Blob)
    requires s != [] && forall k | 0 <= k < |s| :: 48 <= s[k] <= 57
    ensures Atoi(s) == Value(s) && Atoi([45] + s) == 0 - Value(s)
  {
    hide Value;
    assert s[0..] == s && ([45] + s)[0..] == [45] + s && ([45] + s)[1..] == s;
    AllRun(s);
    assert s[..|s|] == s;
  }

  /** Numbers are read in base ten, the most significant digit first. */
  lemma ReadsDecimal(s: Blob, d: nat)
    requires d < 10 && forall k | 0 <= k < |s| :: 48 <= s[k] <= 57
    ensures Atoi([48 + d]) == d
    ensures s != [] ==> Atoi(s + [48 + d]) == 10 * Atoi(s) + d && Atoi([45] + s) == 0 - Atoi(s)
  {
    hide Value, Atoi;
    SignedAll([48 + d]);
    ValueMore([], d);
    assert [] + [48 + d] == [48 + d] && Value([]) == 0 by {
      NoDigits();
    }
    if s != [] {
      SignedAll(s);
      SignedAll(s + [48 + d]);
      ValueMore(s, d);
    }
  }

  lemma NoDigits()
    ensures Value([]) == 0
  {
  }

  lemma AtoiItoa(n: int)
    ensures Atoi(Itoa(n)) == n && NulFree(Itoa(n)) && Itoa(n) != []
  {
    hide Digits, Atoi;
    AtoiReads([], n, []);
    AllDigits(if n < 0 then -n else n);
    assert [] + (Itoa(n) + []) == Itoa(n);
  }

  // ----- packing

  predicate Plain(q: QValue) {
    NulFree(q.qtresult) && NulFree(q.qtname) && NulFree(q.algorithm) && NulFree(q.message)
  }

  predicate AllPlain(qr: seq<QValue>) {
    forall k | 0 <= k < |qr| :: Plain(qr[k])
  }

  /** The five fields of a report, each ended by one NUL. */
  function Record(q: QValue): Blob {
    Itoa(q.code) + [NUL] + (q.qtresult + [NUL] + (q.qtname + [NUL] + (q.algorithm + [NUL] + (q.message + [NUL]))))
  }

  /** packQualityData: a second NUL follows each record. */
  function Pack(qr: seq<QValue>): Blob {
    if qr == [] then [] else Pack(qr[..|qr| - 1]) + (Record(qr[|qr| - 1]) + [NUL])
  }

  /** The stream that unpackQualityData expects. */
  function Stream(qr: seq<QValue>): Blob {
    if qr == [] then [] else Record(qr[0]) + Stream(qr[1..])
  }

  // ----- unpacking

  /** The C string at the start of m, if it ends within m. */
  function Text(m: Blob): (n: nat)
    ensures n <= |m| && NulFree(m[..n])
    ensures n < |m| ==> m[n] == NUL
  {
    if m == [] || m[0] == NUL then 0
    else
      var n := Text(m[1..]);
      assert m[..n + 1] == [m[0]] + m[1..][..n];
      n + 1
  }

  lemma TextNext(m: Blob)
    requires m != [] && m[0] != NUL
    ensures Text(m) == 1 + Text(m[1..])
  {
  }

  lemma TextOf(s: Blob, rest: Blob)
    requires NulFree(s)
    ensures Text(s + [NUL] + rest) == |s|
  {
    var m := s + [NUL] + rest;
    assert m[|s|] == NUL && (forall k | 0 <= k < |s| :: m[k] == s[k]);
  }

  /** The memory from the reader's position on ends inside a record. */
  datatype Parsed = Overrun | Parsed(qr: seq<QValue>, report: Report)

  /** One field and what follows its NUL. */
  datatype Field = NoField | Field(text: Blob, rest: Blob)

  function ReadField(m: Blob): (f: Field)
    ensures f.Field? ==> |f.rest| < |m|
  {
    if Text(m) == |m| then NoField else Field(m[..Text(m)], m[Text(m) + 1..])
  }

  lemma ReadFieldOf(s: Blob, rest: Blob)
    requires NulFree(s)
    ensures ReadField(s + [NUL] + rest) == Field(s, rest)
  {
    TextOf(s, rest);
    var m := s + [NUL] + rest;
    assert m[..|s|] == s && m[|s| + 1..] == rest;
  }

  /** unpackQualityData from position m on, with the reports and flags so far. */
  function Unpack(m: Blob, qr: seq<QValue>, report: Report): Parsed
    decreases |m|
  {
    if m == [] then Overrun
    else if m[0] == NUL then Parsed(qr, report)
    else
      var code := ReadField(m);
      if code.NoField? then Overrun else
      var result := ReadField(code.rest);
      if result.NoField? then Overrun else
      var name := ReadField(result.rest);
      if name.NoField? then Overrun else
      var algorithm := ReadField(name.rest);
      if algorithm.NoField? then Overrun else
      var message := ReadField(algorithm.rest);
      if message.NoField? then Overrun else
      var q := QValue(Atoi(code.text), result.text, name.text, algorithm.text, message.text);
      Unpack(message.rest, qr + [q], report.With(q.code))
  }

  lemma RecordStarts(q: QValue, rest: Blob)
    ensures Record(q) + rest == Itoa(q.code) + [NUL] + (q.qtresult + [NUL] + (q.qtname + [NUL]
      + (q.algorithm + [NUL] + (q.message + [NUL] + rest))))
  {
    hide Itoa;
  }

  /** Unpacking a record takes exactly that record off the stream. */
  lemma UnpackRecord(q: QValue, rest: Blob, qr: seq<QValue>, report: Report)
    requires Plain(q)
    ensures Unpack(Record(q) + rest, qr, report) == Unpack(rest, qr + [q], report.With(q.code))
  {
    AtoiItoa(q.code);
    RecordStarts(q, rest);
    var r5 := rest;
    var r4 := q.message + [NUL] + r5;
    var r3 := q.algorithm + [NUL] + r4;
    var r2 := q.qtname + [NUL] + r3;
    var r1 := q.qtresult + [NUL] + r2;
    ReadFieldOf(q.message, r5);
    ReadFieldOf(q.algorithm, r4);
    ReadFieldOf(q.qtname, r3);
    ReadFieldOf(q.qtresult, r2);
    ReadFieldOf(Itoa(q.code), r1);
    hide Itoa, Atoi, ReadField;
    assert (Itoa(q.code) + [NUL] + r1)[0] != NUL;
  }

  /** The fields are read in the order code, result, test name, algorithm and
      message, and packed in the same order. */
  lemma FieldsInOrder(code: int, result: Blob, name: Blob, algorithm: Blob, message: Blob, rest: Blob, report: Report)
    requires 0 !in result && 0 !in name && 0 !in algorithm && 0 !in message
    ensures var q, n := QValue(code, result, name, algorithm, message), Itoa(code);
      var fields := n + [0] + result + [0] + name + [0] + algorithm + [0] + message + [0];
      && Pack([q]) == fields + [0]
      && Unpack(fields + [0] + rest, [], report) == Parsed([q], report.With(code))
  {
    var q := QValue(code, result, name, algorithm, message);
    hide Record, Pack, Unpack, Itoa;
    RecordIs(q);
    OneRecord(q, rest, report);
  }

  lemma OneRecord(q: QValue, rest: Blob, report: Report)
    requires Plain(q)
    ensures Pack([q]) == Record(q) + [0]
    ensures Unpack(Record(q) + [0] + rest, [], report) == Parsed([q], report.With(q.code))
  {
    hide Record, Unpack, Plain;
    var none: seq<QValue> := [];
    UnpackRecord(q, [0] + rest, none, report);
    assert none + [q] == [q];
    StopsAtNul(rest, [q], report.With(q.code));
    Assoc(Record(q), [NUL], rest);
    assert [q][..0] == [] && [] + (Record(q) + [0]) == Record(q) + [0];
  }

  lemma RecordIs(q: QValue)
    ensures Record(q) == Itoa(q.code) + [0] + q.qtresult + [0] + q.qtname + [0] + q.algorithm + [0] + q.message + [0]
  {
    hide Itoa;
  }

  /** The flags that a list of reports sets. */
  function ReportOf(qr: seq<QValue>, report: Report): Report {
    if qr == [] then report else ReportOf(qr[1..], report.With(qr[0].code))
  }

  /** Each flag is set iff some report has its severity. */
  lemma {:induction false} ReportIsUnion(qr: seq<QValue>, report: Report)
    ensures var r := ReportOf(qr, report);
      && (r.warn <==> report.warn || exists q :: q in qr && q.code == 200)
      && (r.error <==> report.error || exists q :: q in qr && q.code == 300)
      && (r.other <==> report.other || exists q :: q in qr && q.code !in {100, 200, 300})
  {
    if qr != [] {
      ReportIsUnion(qr[1..], report.With(qr[0].code));
      assert forall q :: q in qr <==> q == qr[0] || q in qr[1..];
    }
  }

  lemma StopsAtNul(rest: Blob, qr: seq<QValue>, report: Report)
    ensures Unpack([NUL] + rest, qr, report) == Parsed(qr, report)
  {
  }

  lemma StreamFirst(qr: seq<QValue>)
    requires qr != []
    ensures Stream(qr) + [NUL] == Record(qr[0]) + (Stream(qr[1..]) + [NUL])
  {
    hide Record;
    Assoc(Record(qr[0]), Stream(qr[1..]), [NUL]);
  }

  lemma FirstMoves<T>(before: seq<T>, ts: seq<T>)
    requires ts != []
    ensures before + [ts[0]] + ts[1..] == before + ts
  {
  }

  /** A stream of records, each field ended by one NUL, gives back every report. */
  lemma {:induction false} UnpackStream(qr: seq<QValue>, before: seq<QValue>, report: Report)
    requires AllPlain(qr)
    ensures Unpack(Stream(qr) + [NUL], before, report) == Parsed(before + qr, ReportOf(qr, report))
  {
    hide Stream, Record, Unpack, Plain;
    if qr == [] {
      EmptyStream(before, report);
    } else {
      var q, later := qr[0], qr[1..];
      StreamFirst(qr);
      UnpackRecord(q, Stream(later) + [NUL], before, report);
      UnpackStream(later, before + [q], report.With(q.code));
      FirstMoves(before, qr);
    }
  }

  lemma EmptyStream(before: seq<QValue>, report: Report)
    ensures Unpack(Stream([]) + [NUL], before, report) == Parsed(before + [], report)
  {
    StopsAtNul([], before, report);
    assert Stream([]) + [NUL] == [NUL] + [];
    assert before + [] == before;
  }

  lemma {:induction false} PackStarts(qr: seq<QValue>)
    requires qr != []
    ensures exists rest :: Pack(qr) == Record(qr[0]) + ([NUL] + rest)
  {
    hide Record;
    if |qr| == 1 {
      assert Pack(qr[..0]) == [];
      assert Pack(qr) == Record(qr[0]) + ([NUL] + []);
    } else {
      var init := qr[..|qr| - 1];
      PackStarts(init);
      var rest :| Pack(init) == Record(init[0]) + ([NUL] + rest);
      var more := Record(qr[|qr| - 1]) + [NUL];
      assert Pack(qr) == Pack(init) + more;
      hide Pack;
      assert Pack(init) + more == Record(qr[0]) + ([NUL] + (rest + more));
    }
  }

  /** Unpacking what was packed gives back the first report only: the second
      NUL that ends a record also ends the list. */
  lemma UnpackPack(qr: seq<QValue>, report: Report)
    requires AllPlain(qr)
    ensures Unpack(Pack(qr) + [NUL], [], report) ==
      if qr == [] then Parsed([], report) else Parsed([qr[0]], report.With(qr[0].code))
  {
    if qr == [] {
      assert Pack(qr) + [NUL] == [NUL];
    } else {
      PackStarts(qr);
      var rest :| Pack(qr) == Record(qr[0]) + ([NUL] + rest);
      var tail := [NUL] + rest + [NUL];
      StopsAtNul(rest + [NUL], [qr[0]], report.With(qr[0].code));
      Assoc([NUL], rest, [NUL]);
      hide Pack, Record, Unpack, Plain;
      Assoc(Record(qr[0]), [NUL] + rest, [NUL]);
      UnpackRecord(qr[0], tail, [], report);
      assert [] + [qr[0]] == [qr[0]];
    }
  }

  /** So a list survives the round trip iff it has at most one report. */
  lemma RoundTripIff(qr: seq<QValue>, report: Report)
    requires AllPlain(qr)
    ensures Unpack(Pack(qr) + [NUL], [], report) == Parsed(qr, ReportOf(qr, report)) <==> |qr| <= 1
  {
    UnpackPack(qr, report);
  }

  // ----- the loops

  method PackQualityData(qr: seq<QValue>) returns (into: Blob)
    ensures into == Pack(qr)
  {
    hide Record;
    into := [];
    for i := 0 to |qr|
      invariant into == Pack(qr[..i])
    {
      assert qr[..i + 1][..i] == qr[..i];
      into := into + (Record(qr[i]) + [NUL]);
    }
    assert qr[..|qr|] == qr;
  }

  /** Step over the characters of a field and over its NUL. */
  method NextField(m: Blob) returns (text: Blob, rest: Blob)
    requires ReadField(m).Field?
    ensures Field(text, rest) == ReadField(m)
  {
    text, rest := [], m;
    while rest[0] != NUL
      invariant |text| + Text(rest) == Text(m) && m == text + rest && Text(m) < |m|
      decreases |rest|
    {
      TextNext(rest);
      hide Text;
      assert [rest[0]] + rest[1..] == rest;
      Assoc(text, [rest[0]], rest[1..]);
      text := text + [rest[0]];
      rest := rest[1..];
    }
    rest := rest[1..];
  }

  /** unpackQualityData on a buffer in which every record is complete. */
  method UnpackQualityData(from: Blob, flags: Report) returns (qr: seq<QValue>, report: Report)
    requires Unpack(from, [], flags).Parsed?
    ensures Parsed(qr, report) == Unpack(from, [], flags)
  {
    hide ReadField, Atoi;
    var qdata := from;
    qr, report := [], flags;
    while qdata[0] != NUL
      invariant qdata != [] && Unpack(qdata, qr, report) == Unpack(from, [], flags)
      decreases |qdata|
    {
      var code, qtresult, qtname, algorithm, message;
      code, qdata := NextField(qdata);
      qtresult, qdata := NextField(qdata);
      qtname, qdata := NextField(qdata);
      algorithm, qdata := NextField(qdata);
      message, qdata := NextField(qdata);
      var qv := QValue(Atoi(code), qtresult, qtname, algorithm, message);
      qr := qr + [qv];
      report := report.With(qv.code);
    }
  }
}
