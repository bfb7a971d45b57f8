/** The line buffer between a byte stream and a line-oriented reader
    (LineBuffer.h): a queue of lines whose last one may still grow and whose
    first one may be partly consumed. */
module LineBuffers {
  import opened Bytes
  import opened Options

  datatype Line = Line(line: string, start: nat, complete: bool)

  // ----- filling

  /** The queue with an open line at its back. */
  function Opened(q: seq<Line>): (r: seq<Line>)
    ensures r != [] && !r[|r| - 1].complete
    ensures r == q || r == q + [Line("", 0, false)]
  {
    if q == [] || q[|q| - 1].complete then q + [Line("", 0, false)] else q
  }

  /** Add s to the open line and close that line if complete is set. */
  function Append(q: seq<Line>, s: string, complete: bool): seq<Line> {
    var o := Opened(q);
    var l := o[|o| - 1];
    o[|o| - 1 := Line(l.line + s, l.start, complete)]
  }

  /** One received character: a newline closes the open line. */
  function Feed(q: seq<Line>, c: char): seq<Line> {
    if c == '\n' then Append(q, "", true) else Append(q, [c], false)
  }

  function FeedAll(q: seq<Line>, data: string): seq<Line> {
    if data == "" then q else Feed(FeedAll(q, data[..|data| - 1]), data[|data| - 1])
  }

  lemma {:induction false} FeedConcat(q: seq<Line>, a: string, b: string)
    ensures FeedAll(q, a + b) == FeedAll(FeedAll(q, a), b)
  {
    if b == "" {
      assert a + b == a;
    } else {
      FeedConcat(q, a, b[..|b| - 1]);
      assert (a + b)[..|a + b| - 1] == a + b[..|b| - 1];
    }
  }

  /** A stretch without newlines is appended in one piece. */
  lemma {:induction false} FeedStretch(q: seq<Line>, s: string)
    requires '\n' !in s
    ensures FeedAll(q, s) == if s == "" then q else Append(q, s, false)
  {
    if s != "" {
      var init, c := s[..|s| - 1], s[|s| - 1];
      FeedStretch(q, init);
      assert init + [c] == s;
      var o := Opened(q);
      assert (o[|o| - 1].line + init) + [c] == o[|o| - 1].line + s;
    }
  }

  lemma FeedLine(q: seq<Line>, s: string)
    requires '\n' !in s
    ensures FeedAll(q, s + "\n") == Append(q, s, true)
  {
    FeedStretch(q, s);
    assert (s + "\n")[..|s|] == s;
    var o := Opened(q);
    assert o[|o| - 1].line + s + "" == o[|o| - 1].line + s;
  }

  /** Lines as they arrive, each ended by a newline. */
  function Ended(lines: seq<string>): string {
    if lines == [] then "" else Ended(lines[..|lines| - 1]) + (lines[|lines| - 1] + "\n")
  }

  /** Received lines are queued one by one, and what comes after the last newline
      is queued as a line that may still grow. */
  lemma {:induction false} LinesQueued(lines: seq<string>, last: string)
    requires '\n' !in last && forall i | 0 <= i < |lines| :: '\n' !in lines[i]
    ensures FeedAll([], Ended(lines) + last) ==
      seq(|lines|, i requires 0 <= i < |lines| => Line(lines[i], 0, true)) +
      if last == "" then [] else [Line(last, 0, false)]
  {
    hide FeedAll, Append;
    FeedConcat([], Ended(lines), last);
    EndedQueued(lines);
    var q := seq(|lines|, i requires 0 <= i < |lines| => Line(lines[i], 0, true));
    FeedStretch(q, last);
    AppendNew(q, last, false);
  }

  lemma AppendNew(q: seq<Line>, s: string, complete: bool)
    requires q != [] ==> q[|q| - 1].complete
    ensures Append(q, s, complete) == q + [Line(s, 0, complete)]
  {
    assert "" + s == s;
  }

  lemma {:induction false} EndedQueued(lines: seq<string>)
    requires forall i | 0 <= i < |lines| :: '\n' !in lines[i]
    ensures FeedAll([], Ended(lines)) == seq(|lines|, i requires 0 <= i < |lines| => Line(lines[i], 0, true))
  {
    if lines == [] {
      assert FeedAll([], "") == [];
    } else {
      hide FeedAll, Append;
      var init, s := lines[..|lines| - 1], lines[|lines| - 1];
      var q := seq(|init|, i requires 0 <= i < |init| => Line(init[i], 0, true));
      EndedQueued(init);
      FeedConcat([], Ended(init), s + "\n");
      FeedLine(q, s);
      AppendNew(q, s, true);
    }
  }

  /** parse() looks at the byte behind data when data does not end in a
      newline.  If that byte is one, the last line is closed too soon. */
  predicate Overreads(data: string, past: char) {
    data != "" && data[|data| - 1] != '\n' && past == '\n'
  }

  /** What parse() makes of data when past is the byte behind it. */
  function Seen(data: string, past: char): string {
    if Overreads(data, past) then data + "\n" else data
  }

  function Parsed(q: seq<Line>, data: string, past: char): seq<Line> {
    FeedAll(q, Seen(data, past))
  }

  function Newlines(s: string): nat {
    if s == "" then 0 else Newlines(s[..|s| - 1]) + if s[|s| - 1] == '\n' then 1 else 0
  }

  lemma {:induction false} NewlinesConcat(a: string, b: string)
    ensures Newlines(a + b) == Newlines(a) + Newlines(b)
  {
    if b == "" {
      assert a + b == a;
    } else {
      NewlinesConcat(a, b[..|b| - 1]);
      assert (a + b)[..|a + b| - 1] == a + b[..|b| - 1];
    }
  }

  function Completed(q: seq<Line>): nat {
    if q == [] then 0 else Completed(q[..|q| - 1]) + if q[|q| - 1].complete then 1 else 0
  }

  lemma AppendCompleted(q: seq<Line>, s: string, complete: bool)
    ensures Completed(Append(q, s, complete)) == Completed(q) + if complete then 1 else 0
  {
    var o, r := Opened(q), Append(q, s, complete);
    assert r[..|r| - 1] == o[..|o| - 1];
    if o != q {
      assert o[..|o| - 1] == q;
    }
  }

  /** Each newline closes one line. */
  lemma {:induction false} FeedCompleted(q: seq<Line>, data: string)
    ensures Completed(FeedAll(q, data)) == Completed(q) + Newlines(data)
  {
    if data != "" {
      var init, c := data[..|data| - 1], data[|data| - 1];
      FeedCompleted(q, init);
      AppendCompleted(FeedAll(q, init), if c == '\n' then "" else [c], c == '\n');
    }
  }

  lemma NewlinesTell(q: seq<Line>, a: string, b: string)
    requires Newlines(a) != Newlines(b)
    ensures FeedAll(q, a) != FeedAll(q, b)
  {
    FeedCompleted(q, a);
    FeedCompleted(q, b);
  }

  lemma SeenInPieces(a: string, pastA: char, b: string, past: char)
    requires b != "" && !Overreads(a, pastA)
    ensures Seen(a, pastA) + Seen(b, past) == Seen(a + b, past)
  {
    assert (a + b)[|a + b| - 1] == b[|b| - 1];
    assert a + (b + "\n") == (a + b) + "\n";
  }

  /** Splitting the input makes no difference exactly when no read beyond the
      end of a piece finds a newline that the unsplit input does not have. */
  lemma SplitIff(q: seq<Line>, a: string, pastA: char, b: string, past: char)
    ensures Parsed(Parsed(q, a, pastA), b, past) == Parsed(q, a + b, past) <==>
      if b == "" then Overreads(a, pastA) == Overreads(a, past) else !Overreads(a, pastA)
  {
    FeedConcat(q, Seen(a, pastA), Seen(b, past));
    NewlinesConcat(Seen(a, pastA), Seen(b, past));
    NewlinesConcat(a, b);
    SeenNewlines(a, pastA);
    SeenNewlines(b, past);
    SeenNewlines(a + b, past);
    assert b != "" ==> Overreads(b, past) == Overreads(a + b, past) by {
      if b != "" {
        assert (a + b)[|a + b| - 1] == b[|b| - 1];
      }
    }
    if b == "" {
      assert a + b == a && Seen(a, pastA) + Seen(b, past) == Seen(a, pastA);
      hide FeedAll, Newlines;
      if Overreads(a, pastA) != Overreads(a, past) {
        NewlinesTell(q, Seen(a, pastA), Seen(a, past));
      }
    } else if Overreads(a, pastA) {
      hide FeedAll, Newlines, Overreads, Seen;
      NewlinesTell(q, Seen(a, pastA) + Seen(b, past), Seen(a + b, past));
    } else {
      SeenInPieces(a, pastA, b, past);
    }
  }

  lemma SeenNewlines(data: string, past: char)
    ensures Newlines(Seen(data, past)) == Newlines(data) + if Overreads(data, past) then 1 else 0
  {
    assert (data + "\n")[..|data|] == data;
  }

  // ----- draining

  /** What is in the buffer or was taken from it: characters and line ends. */
  datatype Item = Ch(c: char) | End

  function Chars(s: string): seq<Item> {
    if s == "" then [] else Chars(s[..|s| - 1]) + [Ch(s[|s| - 1])]
  }

  /** The items that parse() receives: a newline stands for a line end. */
  function Tokens(s: string): seq<Item> {
    if s == "" then [] else Tokens(s[..|s| - 1]) + [if s[|s| - 1] == '\n' then End else Ch(s[|s| - 1])]
  }

  lemma {:induction false} CharsConcat(a: string, b: string)
    ensures Chars(a + b) == Chars(a) + Chars(b)
  {
    if b == "" {
      assert a + b == a;
    } else {
      CharsConcat(a, b[..|b| - 1]);
      assert (a + b)[..|a + b| - 1] == a + b[..|b| - 1];
    }
  }

  lemma {:induction false} CharsNoEnd(s: string)
    ensures End !in Chars(s) && |Chars(s)| == |s|
  {
    if s != "" {
      CharsNoEnd(s[..|s| - 1]);
    }
  }

  /** The items a buffered line still holds. */
  function LineItems(l: Line): seq<Item> {
    Chars(if l.start <= |l.line| then l.line[l.start..] else "") + if l.complete then [End] else []
  }

  /** The queue's invariant: only the last line is open, only the first one is
      partly consumed, and no line that was consumed to its end remains. */
  ghost predicate QueueInv(q: seq<Line>) {
    && (forall i | 0 <= i < |q| - 1 :: q[i].complete)
    && (forall i | 0 < i < |q| :: q[i].start == 0)
    && (q != [] ==> q[0].start < |q[0].line| || q[0].start == 0)
  }

  function Items(q: seq<Line>): seq<Item> {
    if q == [] then [] else Items(q[..|q| - 1]) + LineItems(q[|q| - 1])
  }

  lemma {:induction false} ItemsFront(q: seq<Line>)
    requires q != []
    ensures Items(q) == LineItems(q[0]) + Items(q[1..])
  {
    hide LineItems;
    if |q| == 1 {
      assert q[..0] == [] == q[1..];
    } else {
      var init, last := q[..|q| - 1], q[|q| - 1];
      ItemsFront(init);
      assert init[1..] == q[1..][..|q| - 2];
      assert Items(q[1..]) == Items(init[1..]) + LineItems(last);
      assert Items(q) == Items(init) + LineItems(last);
      hide Items;
      Assoc(LineItems(q[0]), Items(init[1..]), LineItems(last));
    }
  }

  lemma OpenedItems(q: seq<Line>)
    ensures Items(Opened(q)) == Items(q)
  {
    var o := Opened(q);
    if o != q {
      assert o[..|o| - 1] == q;
      assert LineItems(Line("", 0, false)) == [];
    }
  }

  lemma GrownItems(l: Line, s: string, complete: bool)
    requires l.start <= |l.line| && !l.complete
    ensures LineItems(Line(l.line + s, l.start, complete)) == LineItems(l) + (Chars(s) + if complete then [End] else [])
  {
    assert (l.line + s)[l.start..] == l.line[l.start..] + s;
    CharsConcat(l.line[l.start..], s);
    hide Chars;
  }

  lemma AppendInv(q: seq<Line>, s: string, complete: bool)
    requires QueueInv(q)
    ensures QueueInv(Append(q, s, complete))
    ensures Opened(q)[|Opened(q)| - 1].start <= |Opened(q)[|Opened(q)| - 1].line|
  {
  }

  lemma AppendItems(q: seq<Line>, s: string, complete: bool)
    requires QueueInv(q)
    ensures QueueInv(Append(q, s, complete))
    ensures Items(Append(q, s, complete)) == Items(q) + (Chars(s) + if complete then [End] else [])
  {
    AppendInv(q, s, complete);
    OpenedItems(q);
    hide QueueInv;
    var o, r := Opened(q), Append(q, s, complete);
    var l, init := o[|o| - 1], o[..|o| - 1];
    assert r[..|r| - 1] == init;
    assert Items(r) == Items(init) + LineItems(r[|r| - 1]);
    assert Items(o) == Items(init) + LineItems(l);
    GrownItems(l, s, complete);
    hide Items, Chars, LineItems;
    Assoc(Items(init), LineItems(l), Chars(s) + if complete then [End] else []);
  }

  lemma FeedOneItem(q: seq<Line>, c: char)
    requires QueueInv(q)
    ensures QueueInv(Feed(q, c)) && Items(Feed(q, c)) == Items(q) + [if c == '\n' then End else Ch(c)]
  {
    AppendItems(q, if c == '\n' then "" else [c], c == '\n');
    assert Chars([c]) == [Ch(c)] by { assert [c][..0] == ""; }
    hide Items, QueueInv, Append;
    assert Chars([c]) + [] == [Ch(c)] && Chars("") + [End] == [End];
  }

  lemma {:induction false} FeedItems(q: seq<Line>, data: string)
    requires QueueInv(q)
    ensures QueueInv(FeedAll(q, data)) && Items(FeedAll(q, data)) == Items(q) + Tokens(data)
  {
    hide QueueInv, Items, Feed;
    if data != "" {
      var init, c := data[..|data| - 1], data[|data| - 1];
      FeedItems(q, init);
      FeedOneItem(FeedAll(q, init), c);
      Assoc(Items(q), Tokens(init), [if c == '\n' then End else Ch(c)]);
    }
  }

  // ----- runs of the buffer

  datatype Op =
    | Parse(data: string, past: char)
    | Queue(line: string, complete: bool)
    | Consume(bytes: nat)

  /** consumed() may follow only what nextBuffer() returned. */
  predicate Allowed(q: seq<Line>, op: Op) {
    op.Consume? ==> Available(q) && q[0].start + op.bytes <= |q[0].line|
  }

  predicate Available(q: seq<Line>) {
    q != [] && q[0].complete
  }

  function ConsumedBy(q: seq<Line>, bytes: nat): seq<Line>
    requires q != []
  {
    var l := q[0].(start := q[0].start + bytes);
    if l.start == |l.line| then q[1..] else [l] + q[1..]
  }

  function Step(q: seq<Line>, op: Op): seq<Line>
    requires Allowed(q, op)
  {
    match op
    case Parse(data, past) => Parsed(q, data, past)
    case Queue(line, complete) => Append(q, line, complete)
    case Consume(bytes) => ConsumedBy(q, bytes)
  }

  /** The items an operation puts in. */
  function Fed(op: Op): seq<Item> {
    match op
    case Parse(data, past) => Tokens(Seen(data, past))
    case Queue(line, complete) => Chars(line) + if complete then [End] else []
    case Consume(_) => []
  }

  /** The items an operation takes out: the characters handed to the reader,
      and the line end once the whole line has gone. */
  function Taken(q: seq<Line>, op: Op): seq<Item>
    requires Allowed(q, op)
  {
    match op
    case Parse(_, _) => []
    case Queue(_, _) => []
    case Consume(bytes) =>
      var l := q[0];
      Chars(l.line[l.start..l.start + bytes]) + if l.start + bytes == |l.line| then [End] else []
  }

  lemma ConsumeLine(l: Line, bytes: nat)
    requires l.complete && l.start + bytes <= |l.line|
    ensures var l' := l.(start := l.start + bytes);
      LineItems(l) == Chars(l.line[l.start..l'.start]) + LineItems(l')
  {
    var mid := l.start + bytes;
    assert l.line[l.start..mid] + l.line[mid..] == l.line[l.start..];
    CharsConcat(l.line[l.start..mid], l.line[mid..]);
    hide Chars;
  }

  lemma ConsumeInv(q: seq<Line>, bytes: nat)
    requires QueueInv(q) && Allowed(q, Consume(bytes))
    ensures QueueInv(ConsumedBy(q, bytes))
  {
  }

  lemma PopItems(q: seq<Line>, bytes: nat)
    requires Allowed(q, Consume(bytes)) && q[0].start + bytes == |q[0].line|
    ensures Items(q) == Taken(q, Consume(bytes)) + Items(q[1..])
  {
    hide Items, Chars;
    var l := q[0];
    ItemsFront(q);
    assert l.line[l.start..l.start + bytes] == l.line[l.start..];
    assert LineItems(l) == Taken(q, Consume(bytes));
  }

  lemma AdvanceItems(q: seq<Line>, bytes: nat)
    requires Allowed(q, Consume(bytes)) && q[0].start + bytes < |q[0].line|
    ensures Items(q) == Taken(q, Consume(bytes)) + Items(ConsumedBy(q, bytes))
  {
    hide Items, Chars, LineItems;
    var l, r := q[0], ConsumedBy(q, bytes);
    ItemsFront(q);
    ConsumeLine(l, bytes);
    ItemsFront(r);
    assert r[1..] == q[1..];
    var cs := Chars(l.line[l.start..l.start + bytes]);
    assert Taken(q, Consume(bytes)) == cs by {
      assert cs + [] == cs;
    }
    hide Taken;
    Assoc(cs, LineItems(r[0]), Items(q[1..]));
  }

  lemma ConsumeItems(q: seq<Line>, bytes: nat)
    requires Allowed(q, Consume(bytes))
    ensures Items(q) == Taken(q, Consume(bytes)) + Items(ConsumedBy(q, bytes))
  {
    hide Items, Taken;
    if q[0].start + bytes == |q[0].line| {
      PopItems(q, bytes);
    } else {
      AdvanceItems(q, bytes);
    }
  }

  /** Every operation conserves the items. */
  lemma StepConserves(q: seq<Line>, op: Op)
    requires QueueInv(q) && Allowed(q, op)
    ensures QueueInv(Step(q, op)) && Items(q) + Fed(op) == Taken(q, op) + Items(Step(q, op))
  {
    match op
    case Parse(data, past) =>
      FeedItems(q, Seen(data, past));
    case Queue(line, complete) =>
      AppendItems(q, line, complete);
    case Consume(bytes) =>
      ConsumeInv(q, bytes);
      ConsumeItems(q, bytes);
      hide *;
      assert Items(q) + [] == Items(q);
  }

  predicate Valid(ops: seq<Op>)
    decreases |ops|, 0
  {
    ops == [] || (Valid(ops[..|ops| - 1]) && Allowed(Run(ops[..|ops| - 1]), ops[|ops| - 1]))
  }

  /** The queue after ops on an empty buffer. */
  function Run(ops: seq<Op>): seq<Line>
    requires Valid(ops)
    decreases |ops|, 1
  {
    if ops == [] then [] else Step(Run(ops[..|ops| - 1]), ops[|ops| - 1])
  }

  function AllFed(ops: seq<Op>): seq<Item> {
    if ops == [] then [] else AllFed(ops[..|ops| - 1]) + Fed(ops[|ops| - 1])
  }

  function AllTaken(ops: seq<Op>): seq<Item>
    requires Valid(ops)
  {
    if ops == [] then [] else AllTaken(ops[..|ops| - 1]) + Taken(Run(ops[..|ops| - 1]), ops[|ops| - 1])
  }

  /** In any run, all that was received is what was taken out followed by what
      is buffered: nothing is lost, repeated or reordered. */
  lemma {:induction false} RunConserves(ops: seq<Op>)
    requires Valid(ops)
    ensures QueueInv(Run(ops)) && AllFed(ops) == AllTaken(ops) + Items(Run(ops))
  {
    if ops != [] {
      var init, op := ops[..|ops| - 1], ops[|ops| - 1];
      RunConserves(init);
      hide QueueInv, Items, Fed, Taken, Step, Allowed;
      StepConserves(Run(init), op);
      Assoc(AllTaken(init), Items(Run(init)), Fed(op));
      Assoc(AllTaken(init), Taken(Run(init), op), Items(Run(ops)));
    }
  }

  /** The items up to the last line end. */
  function WholeLines(items: seq<Item>): seq<Item> {
    if items == [] || items[|items| - 1] == End then items else WholeLines(items[..|items| - 1])
  }

  lemma {:induction false} WholeLinesPrefix(a: seq<Item>, b: seq<Item>)
    requires End !in b && (a == [] || a[|a| - 1] == End)
    ensures WholeLines(a + b) == a
  {
    if b == [] {
      assert a + b == a;
    } else {
      WholeLinesPrefix(a, b[..|b| - 1]);
      assert (a + b)[..|a + b| - 1] == a + b[..|b| - 1];
    }
  }

  lemma {:induction false} WholeLinesLonger(a: seq<Item>, b: seq<Item>)
    requires End in b
    ensures |WholeLines(a + b)| > |a|
  {
    if b[|b| - 1] != End {
      WholeLinesLonger(a, b[..|b| - 1]);
      assert (a + b)[..|a + b| - 1] == a + b[..|b| - 1];
    }
  }

  lemma AvailableIffEnd(q: seq<Line>)
    requires QueueInv(q)
    ensures Available(q) <==> End in Items(q)
  {
    if q != [] {
      ItemsFront(q);
      CharsNoEnd(q[0].line[q[0].start..]);
      if !q[0].complete {
        assert q[1..] == [];
      }
    }
  }

  /** The items taken stop between lines unless the first line is part gone. */
  ghost predicate Stopped(taken: seq<Item>, q: seq<Line>) {
    && (q == [] || q[0].start == 0 ==> taken == [] || taken[|taken| - 1] == End)
    && (q != [] && q[0].start > 0 ==> q[0].complete)
  }

  lemma ConsumeStops(taken: seq<Item>, q: seq<Line>, bytes: nat)
    requires QueueInv(q) && Allowed(q, Consume(bytes)) && Stopped(taken, q)
    ensures Stopped(taken + Taken(q, Consume(bytes)), ConsumedBy(q, bytes))
  {
    var l := q[0];
    if bytes == 0 {
      assert l.line[l.start..l.start] == "";
    }
  }

  lemma FillStops(taken: seq<Item>, q: seq<Line>, op: Op)
    requires QueueInv(q) && !op.Consume? && Stopped(taken, q)
    ensures Stopped(taken, Step(q, op))
  {
    match op
    case Parse(data, past) => FeedKeepsFront(q, Seen(data, past));
    case Queue(line, complete) =>
  }

  lemma {:induction false} TakenStops(ops: seq<Op>)
    requires Valid(ops)
    ensures Stopped(AllTaken(ops), Run(ops))
  {
    if ops != [] {
      var init, op := ops[..|ops| - 1], ops[|ops| - 1];
      TakenStops(init);
      RunConserves(init);
      var q, taken := Run(init), AllTaken(init);
      hide Stopped, QueueInv, Items;
      if op.Consume? {
        ConsumeStops(taken, q, op.bytes);
      } else {
        FillStops(taken, q, op);
        assert taken + [] == taken;
      }
    }
  }

  lemma {:induction false} FeedKeepsFront(q: seq<Line>, data: string)
    ensures var r := FeedAll(q, data);
      && (q != [] && q[0].complete ==> r != [] && r[0] == q[0])
      && (r != [] && r[0].start > 0 ==> q != [] && r[0].start == q[0].start)
      && (q != [] ==> r != [] && r[0].start == q[0].start)
  {
    if data != "" {
      FeedKeepsFront(q, data[..|data| - 1]);
    }
  }

  /** A reader that takes buffers in any portions has received exactly the
      newline-terminated lines, in order, if and only if nextBuffer() has no
      more for it. */
  lemma DrainedIff(ops: seq<Op>)
    requires Valid(ops)
    ensures AllTaken(ops) == WholeLines(AllFed(ops)) <==> !Available(Run(ops))
  {
    var q := Run(ops);
    RunConserves(ops);
    AvailableIffEnd(q);
    TakenStops(ops);
    assert q == [] || q[0].start == 0 || Available(q);
    hide Items, AllFed, AllTaken, Run, Valid, QueueInv;
    if Available(q) {
      WholeLinesLonger(AllTaken(ops), Items(q));
    } else {
      WholeLinesPrefix(AllTaken(ops), Items(q));
    }
  }

  // ----- the class

  function TotalBytes(q: seq<Line>): nat {
    if q == [] then 0 else TotalBytes(q[..|q| - 1]) + |q[|q| - 1].line|
  }

  class LineBuffer {
    var queue: seq<Line>

    constructor ()
      ensures queue == []
    {
      queue := [];
    }

    method Clear()
      modifies this
      ensures queue == []
    {
      queue := [];
    }

    /** last(): make sure there is an open line. */
    method Open()
      modifies this
      ensures queue == Opened(old(queue))
    {
      if queue == [] || queue[|queue| - 1].complete {
        queue := queue + [Line("", 0, false)];
      }
    }

    /** queue() */
    method Enqueue(line: string, complete: bool)
      modifies this
      ensures queue == Step(old(queue), Queue(line, complete))
    {
      Open();
      Grow(line, complete, old(queue));
    }

    /** parse()'s inner loop: the next newline, or the end of data. */
    method EndOfPiece(data: string, start: nat) returns (pos: nat)
      requires start < |data|
      ensures start <= pos <= |data| && '\n' !in data[start..pos]
      ensures pos < |data| ==> data[pos] == '\n'
    {
      pos := start;
      while pos < |data| && data[pos] != '\n'
        invariant start <= pos <= |data|
        invariant '\n' !in data[start..pos]
      {
        pos := pos + 1;
      }
    }

    /** A turn of parse()'s loop: add the piece of data from start to the next
        newline to the open line, and close that line if there is one. */
    method ParsePiece(data: string, past: char, start: nat, ghost q: seq<Line>) returns (pos: nat)
      requires start < |data| && queue == FeedAll(q, (data + [past])[..start])
      modifies this
      ensures start < pos <= |data| + 1 && queue == FeedAll(q, (data + [past])[..pos])
      ensures pos == |data| ==> !Overreads(data, past)
      ensures pos > |data| ==> Overreads(data, past)
    {
      hide FeedAll, Append, Overreads;
      Open();
      pos := EndOfPiece(data, start);
      ghost var text := data + [past];
      assert data[start..pos] == text[start..pos];
      PieceFed(q, text, start, pos);
      LastPiece(data, past, start, pos);
      Grow(data[start..pos], (if pos < |data| then data[pos] else past) == '\n', FeedAll(q, text[..start]));
      if (if pos < |data| then data[pos] else past) == '\n' {
        pos := pos + 1;
      }
    }

    /** Add to the open line and close it if complete is set. */
    method Grow(s: string, complete: bool, ghost before: seq<Line>)
      requires queue == Opened(before)
      modifies this
      ensures queue == Append(before, s, complete)
    {
      var l := queue[|queue| - 1];
      l := l.(line := l.line + s);
      if complete {
        l := l.(complete := true);
      }
      queue := queue[|queue| - 1 := l];
    }

    /** parse(): past is the byte in memory behind data. */
    method Parse(data: string, past: char)
      modifies this
      ensures queue == Step(old(queue), Op.Parse(data, past))
    {
      ghost var q, text := queue, data + [past];
      assert text[..0] == "";
      var pos := 0;
      while pos < |data|
        invariant 0 <= pos <= |data| + 1
        invariant pos == |data| ==> !Overreads(data, past)
        invariant pos > |data| ==> Overreads(data, past)
        invariant queue == FeedAll(q, text[..pos])
        decreases |data| - pos
      {
        hide FeedAll, Overreads;
        pos := ParsePiece(data, past, pos, q);
      }
      assert text[..pos] == Seen(data, past);
    }

    /** nextLine(): the first line, if it is complete, and the position in it. */
    method NextLine() returns (r: Option<(string, nat)>)
      ensures r.Some? <==> Available(queue)
      ensures r.Some? ==> r.value == (queue[0].line, queue[0].start)
    {
      if queue == [] || !queue[0].complete {
        return None;
      }
      return Some((queue[0].line, queue[0].start));
    }

    /** nextBuffer(): what is left of the first line, if it is complete. */
    method NextBuffer() returns (data: Option<string>)
      requires QueueInv(queue)
      ensures data.Some? <==> Available(queue)
      ensures data.Some? ==> queue[0].start <= |queue[0].line| && data.value == queue[0].line[queue[0].start..]
      ensures data.Some? ==> forall n: nat :: Allowed(queue, Consume(n)) <==> n <= |data.value|
    {
      if queue == [] || !queue[0].complete {
        return None;
      }
      var l := queue[0];
      data := Some(l.line[l.start..]);
    }

    method Consumed(bytes: nat)
      requires Allowed(queue, Consume(bytes))
      modifies this
      ensures queue == Step(old(queue), Consume(bytes))
    {
      var l := queue[0].(start := queue[0].start + bytes);
      queue := queue[0 := l];
      if l.start == |l.line| {
        queue := queue[1..];
      }
    }

    /** length(): counts the first line whole, also what was consumed of it. */
    method Length() returns (n: nat)
      ensures n == TotalBytes(queue)
    {
      n := 0;
      var i := 0;
      while i < |queue|
        invariant 0 <= i <= |queue| && n == TotalBytes(queue[..i])
      {
        assert queue[..i + 1][..i] == queue[..i];
        n := n + |queue[i].line|;
        i := i + 1;
      }
      assert queue[..i] == queue;
    }
  }

  /** A turn of parse()'s loop feeds text[start..pos] and, if the byte at pos
      is a newline, that newline. */
  lemma PieceFed(q: seq<Line>, text: string, start: nat, pos: nat)
    requires start <= pos < |text| && '\n' !in text[start..pos]
    requires start < pos || text[pos] == '\n'
    ensures FeedAll(q, text[..if text[pos] == '\n' then pos + 1 else pos]) ==
            Append(FeedAll(q, text[..start]), text[start..pos], text[pos] == '\n')
  {
    var before, s := FeedAll(q, text[..start]), text[start..pos];
    if text[pos] == '\n' {
      assert text[..pos + 1] == text[..start] + (s + "\n");
      FeedConcat(q, text[..start], s + "\n");
      FeedLine(before, s);
    } else {
      assert text[..pos] == text[..start] + s;
      FeedConcat(q, text[..start], s);
      FeedStretch(before, s);
    }
  }

  lemma LastPiece(data: string, past: char, start: nat, pos: nat)
    requires start < |data| && start <= pos <= |data| && '\n' !in (data + [past])[start..pos]
    ensures pos == |data| ==> (Overreads(data, past) <==> past == '\n')
    ensures pos < |data| && data[pos] == '\n' && pos + 1 == |data| ==> !Overreads(data, past)
  {
    if pos == |data| {
      assert data[|data| - 1] == (data + [past])[start..pos][pos - 1 - start];
    }
  }

  /** length() exceeds what is left to read by what was consumed of the first
      line. */
  lemma {:induction false} BytesAreItems(q: seq<Line>)
    requires QueueInv(q)
    ensures TotalBytes(q) == |Items(q)| - Completed(q) + if q == [] then 0 else q[0].start
  {
    if q != [] {
      var init, l := q[..|q| - 1], q[|q| - 1];
      BytesAreItems(init);
      CharsNoEnd(l.line[l.start..]);
    }
  }
}
