/**
 The condition writer: it passes bytes on and watches them, line by line, for the first
 sign that decides a start-up: a line with a stop keyword, or one line too many. The
 line counter is shared between the writer of standard output and that of standard error.
 */
module ConditionWriter {
  import opened Frames

  const NEWLINE: byte := 10

  const MAX_INT32 := 0x7FFF_FFFF

  const MIN_INT32 := -0x8000_0000

  type int32 = x: int | -0x8000_0000 <= x <= 0x7FFF_FFFF

  const EXIT_MAX_WRITE_LINES := 90509

  const EXIT_STOP_KEYWORD := 90510

  /** Conversion of a 64-bit int to int32 keeps the low 32 bits. */
  function ToInt32(n: int): int32 {
    var low := n % 0x1_0000_0000;
    if low <= MAX_INT32 then low else low - 0x1_0000_0000
  }

  /** The counter's atomic increment wraps around. */
  function Inc32(n: int32): int32 {
    if n == MAX_INT32 then MIN_INT32 else n + 1
  }

  /** The outcome of a start-up as it travels through the channels. */
  datatype ExitResult = ExitResult(code: int, message: Text)

  /** What a pair of writers looks for. */
  datatype Watch = Watch(keywords: set<Text>, maxLines: int32)

  /** What a writer made for these keywords and this limit looks for. */
  function WatchFor(keywords: seq<Text>, maxLines: int): Watch {
    Watch((set k | k in keywords), ToInt32(maxLines))
  }

  predicate Contains(text: Text, word: Text) {
    exists i | 0 <= i <= |text| :: OccursAt(text, word, i)
  }

  predicate OccursAt(text: Text, word: Text, i: nat) {
    i + |word| <= |text| && text[i..i + |word|] == word
  }

  function Hits(keywords: set<Text>, line: Text): set<Text> {
    set k | k in keywords && Contains(line, k)
  }

  function Bump(watch: Watch, count: int32): int32 {
    if watch.maxLines > 0 then Inc32(count) else count
  }

  predicate OverLimit(watch: Watch, count: int32) {
    watch.maxLines > 0 && Inc32(count) > watch.maxLines
  }

  /**
   The result of scanning a chunk: either all of it is scanned, or a report is made at
   the newline at index `at` and the rest of the chunk is not looked at. After a keyword
   report (`hits` not empty) the line is still pending.
   */
  datatype Scan =
    | Quiet(line: Text, count: int32)
    | Report(at: nat, line: Text, count: int32, hits: set<Text>)

  function ScanFrom(watch: Watch, line: Text, count: int32, p: Text, i: nat): Scan
    requires i <= |p|
    decreases |p| - i
  {
    if i == |p| then Quiet(line, count)
    else if p[i] != NEWLINE then ScanFrom(watch, line + [p[i]], count, p, i + 1)
    else if Hits(watch.keywords, line) != {} then Report(i, line, count, Hits(watch.keywords, line))
    else if OverLimit(watch, count) then Report(i, [], Bump(watch, count), {})
    else ScanFrom(watch, [], Bump(watch, count), p, i + 1)
  }

  function ScanChunk(watch: Watch, line: Text, count: int32, p: Text): Scan {
    ScanFrom(watch, line, count, p, 0)
  }

  /** The report a scan may send; which of several matching keywords is named is left open. */
  ghost predicate Reports(scan: Scan, r: ExitResult) {
    scan.Report?
    && if scan.hits != {} then r.code == EXIT_STOP_KEYWORD && r.message in scan.hits
       else r == ExitResult(EXIT_MAX_WRITE_LINES, [])
  }

  // ----- The imperative writer.

  /** The shared atomic counter. */
  class LineCounter {
    var value: int32

    constructor ()
      ensures value == 0
    {
      value := 0;
    }

    method Inc() returns (v: int32)
      modifies this
      ensures v == value == Inc32(old(value))
    {
      value := Inc32(value);
      v := value;
    }
  }

  /** The channel to the waiter; a send returns once the value is taken. */
  class ExitChannel {
    var sent: seq<ExitResult>

    constructor ()
      ensures sent == []
    {
      sent := [];
    }

    method Send(r: ExitResult)
      modifies this
      ensures sent == old(sent) + [r]
    {
      sent := sent + [r];
    }
  }

  /** The wrapped writer, with its answers to the writes to come. */
  class InnerWriter {
    var data: Text
    var answers: seq<WriteAnswer>

    constructor (answers: seq<WriteAnswer>)
      ensures data == [] && this.answers == answers
    {
      data := [];
      this.answers := answers;
    }

    method Write(p: Text) returns (n: nat, failed: bool)
      modifies this
      ensures answers == Rest(old(answers))
      ensures n == Taken(FirstAnswer(old(answers)), |p|) && failed == FirstAnswer(old(answers)).Failed?
      ensures data == old(data) + p[..n]
    {
      var answer := FirstAnswer(answers);
      answers := Rest(answers);
      n := Taken(answer, |p|);
      failed := answer.Failed?;
      data := data + p[..n];
    }
  }

  class Writer {
    const inner: InnerWriter
    const maxLines: int32
    const lineCounter: LineCounter
    const exitChan: ExitChannel
    const stopKeywords: set<Text>
    var lastLineBytes: Text

    constructor (inner: InnerWriter, maxLines: int, lineCounter: LineCounter, exitChan: ExitChannel, stopKeywords: seq<Text>)
      ensures this.inner == inner && this.lineCounter == lineCounter && this.exitChan == exitChan
      ensures Watching() == WatchFor(stopKeywords, maxLines)
      ensures lastLineBytes == []
    {
      this.inner := inner;
      this.maxLines := ToInt32(maxLines);
      this.lineCounter := lineCounter;
      this.exitChan := exitChan;
      this.stopKeywords := set k | k in stopKeywords;
      lastLineBytes := [];
    }

    function Watching(): Watch {
      Watch(stopKeywords, maxLines)
    }

    /** Passes the chunk on, then scans it; a report is sent before the rest of the chunk is seen. */
    method Write(p: Text) returns (n: nat, failed: bool)
      modifies this`lastLineBytes, inner, lineCounter, exitChan
      ensures n == Taken(FirstAnswer(old(inner.answers)), |p|) && failed == FirstAnswer(old(inner.answers)).Failed?
      ensures failed ==> lastLineBytes == old(lastLineBytes) && lineCounter.value == old(lineCounter.value)
                         && exitChan.sent == old(exitChan.sent) && inner.data == old(inner.data) + p[..n]
      ensures !failed ==>
                var scan := ScanChunk(Watching(), old(lastLineBytes), old(lineCounter.value), p);
                && lastLineBytes == scan.line && lineCounter.value == scan.count
                && (scan.Quiet? ==> exitChan.sent == old(exitChan.sent) && inner.data == old(inner.data) + p[..n]
                                    && inner.answers == Rest(old(inner.answers)))
                && (scan.Report? ==>
                      && |exitChan.sent| == |old(exitChan.sent)| + 1
                      && exitChan.sent[..|old(exitChan.sent)|] == old(exitChan.sent)
                      && Reports(scan, exitChan.sent[|old(exitChan.sent)|])
                      // The wrapped writer is then given one more newline.
                      && inner.data == old(inner.data) + p[..n]
                                       + [NEWLINE][..Taken(FirstAnswer(Rest(old(inner.answers))), 1)]
                      && inner.answers == Rest(Rest(old(inner.answers))))
    {
      n, failed := inner.Write(p);
      if failed {
        return;
      }
      ghost var scan := ScanChunk(Watching(), lastLineBytes, lineCounter.value, p);
      for i := 0 to |p|
        invariant ScanFrom(Watching(), lastLineBytes, lineCounter.value, p, i) == scan
        invariant exitChan.sent == old(exitChan.sent) && inner.data == old(inner.data) + p[..n]
        invariant inner.answers == Rest(old(inner.answers))
      {
        var c := p[i];
        if c == NEWLINE {
          var hits := Hits(stopKeywords, lastLineBytes);
          if hits != {} {
            var keyword :| keyword in hits;
            exitChan.Send(ExitResult(EXIT_STOP_KEYWORD, keyword));
            var _, _ := inner.Write([NEWLINE]);
            return;
          }
          lastLineBytes := [];
          if maxLines > 0 {
            var count := lineCounter.Inc();
            if count > maxLines {
              exitChan.Send(ExitResult(EXIT_MAX_WRITE_LINES, []));
              var _, _ := inner.Write([NEWLINE]);
              return;
            }
          }
        } else {
          lastLineBytes := lastLineBytes + [c];
        }
      }
    }
  }

  // ----- How chunks may be cut.

  function Shift(scan: Scan, n: nat): Scan {
    if scan.Report? then scan.(at := scan.at + n) else scan
  }

  lemma {:induction false} ScanPrefix(watch: Watch, line: Text, count: int32, p: Text, q: Text, i: nat)
    requires i <= |p|
    ensures ScanFrom(watch, line, count, p + q, i)
         == match ScanFrom(watch, line, count, p, i)
            case Quiet(l, c) => ScanFrom(watch, l, c, p + q, |p|)
            case Report(at, l, c, hits) => Report(at, l, c, hits)
    decreases |p| - i
  {
    if i < |p| {
      if p[i] != NEWLINE {
        ScanPrefix(watch, line + [p[i]], count, p, q, i + 1);
      } else if Hits(watch.keywords, line) == {} && !OverLimit(watch, count) {
        ScanPrefix(watch, [], Bump(watch, count), p, q, i + 1);
      }
    }
  }

  lemma {:induction false} ScanShifted(watch: Watch, line: Text, count: int32, p: Text, q: Text, j: nat)
    requires j <= |q|
    ensures ScanFrom(watch, line, count, p + q, |p| + j) == Shift(ScanFrom(watch, line, count, q, j), |p|)
    decreases |q| - j
  {
    if j < |q| {
      if q[j] != NEWLINE {
        ScanShifted(watch, line + [q[j]], count, p, q, j + 1);
      } else if Hits(watch.keywords, line) == {} && !OverLimit(watch, count) {
        ScanShifted(watch, [], Bump(watch, count), p, q, j + 1);
      }
    }
  }

  /** Scanning two chunks one after the other is scanning them as one, up to the first report. */
  lemma ScanSplit(watch: Watch, line: Text, count: int32, p: Text, q: Text)
    ensures ScanChunk(watch, line, count, p + q)
         == match ScanChunk(watch, line, count, p)
            case Quiet(l, c) => Shift(ScanChunk(watch, l, c, q), |p|)
            case Report(at, l, c, hits) => Report(at, l, c, hits)
  {
    ScanPrefix(watch, line, count, p, q, 0);
    if ScanChunk(watch, line, count, p).Quiet? {
      var scan := ScanChunk(watch, line, count, p);
      ScanShifted(watch, scan.line, scan.count, p, q, 0);
    }
  }

  /** Scanning successive chunks until the first report; `at` counts from the first chunk on. */
  function ScanChunks(watch: Watch, line: Text, count: int32, chunks: seq<Text>): Scan
    decreases |chunks|
  {
    if chunks == [] then Quiet(line, count)
    else
      match ScanChunk(watch, line, count, chunks[0])
      case Quiet(l, c) => Shift(ScanChunks(watch, l, c, chunks[1..]), |chunks[0]|)
      case Report(at, l, c, hits) => Report(at, l, c, hits)
  }

  /**
   However a stream is cut into writes: the same pending line, the same counter, and a
   report at the same byte for the same reason.
   */
  lemma {:induction false} ChunkingDoesNotMatter(watch: Watch, line: Text, count: int32, chunks: seq<Text>)
    ensures ScanChunks(watch, line, count, chunks) == ScanChunk(watch, line, count, Concat(chunks))
    decreases |chunks|
  {
    if chunks != [] {
      ScanSplit(watch, line, count, chunks[0], Concat(chunks[1..]));
      var scan := ScanChunk(watch, line, count, chunks[0]);
      if scan.Quiet? {
        ChunkingDoesNotMatter(watch, scan.line, scan.count, chunks[1..]);
      }
    }
  }

  // ----- When a report is made, without reference to the scanning loop.

  /** The text behind the last newline. */
  function TailLine(s: Text): Text {
    if s == [] || s[|s| - 1] == NEWLINE then [] else TailLine(s[..|s| - 1]) + [s[|s| - 1]]
  }

  function Newlines(s: Text): nat {
    if s == [] then 0 else Newlines(s[..|s| - 1]) + (if s[|s| - 1] == NEWLINE then 1 else 0)
  }

  /** A limit that can ever be passed by the 32-bit counter. */
  predicate Limited(watch: Watch) {
    0 < watch.maxLines < MAX_INT32
  }

  /** The newline at index `i` decides: its line has a keyword, or is one line too many. */
  ghost predicate Decides(watch: Watch, line: Text, count: int32, p: Text, i: nat) {
    && i < |p| && p[i] == NEWLINE
    && (Hits(watch.keywords, TailLine(line + p[..i])) != {}
        || (Limited(watch) && count + Newlines(p[..i]) + 1 > watch.maxLines))
  }

  function CountAfter(watch: Watch, count: int32, newlines: nat): int32 {
    if watch.maxLines > 0 then ToInt32(count + newlines) else count
  }

  /** A counter that no report has been made about yet. */
  ghost predicate BelowLimit(watch: Watch, count: int32) {
    Limited(watch) ==> count <= watch.maxLines
  }

  lemma {:induction false} TailLineNoNewline(s: Text)
    requires NEWLINE !in s
    ensures TailLine(s) == s && Newlines(s) == 0
  {
    if s != [] {
      TailLineNoNewline(s[..|s| - 1]);
      assert s == s[..|s| - 1] + [s[|s| - 1]];
    }
  }

  lemma SnocLine(s: Text, c: byte)
    ensures TailLine(s + [c]) == if c == NEWLINE then [] else TailLine(s) + [c]
    ensures Newlines(s + [c]) == Newlines(s) + if c == NEWLINE then 1 else 0
  {
  }

  lemma CountOneMore(watch: Watch, count: int32, n: nat)
    ensures CountAfter(watch, count, n + 1) == Bump(watch, CountAfter(watch, count, n))
    ensures BelowLimit(watch, count) && (Limited(watch) ==> count + n <= watch.maxLines)
            ==> (OverLimit(watch, CountAfter(watch, count, n)) <==> Limited(watch) && count + n + 1 > watch.maxLines)
  {
  }

  /** What a scan started at `i` finds, in the terms of `Decides`. */
  ghost predicate Finds(watch: Watch, line0: Text, count0: int32, p: Text, i: nat, scan: Scan) {
    match scan
    case Quiet(line, count) =>
      && (forall j | i <= j < |p| :: !Decides(watch, line0, count0, p, j))
      && line == TailLine(line0 + p)
      && count == CountAfter(watch, count0, Newlines(p))
    case Report(at, line, count, hits) =>
      && i <= at < |p|
      && Decides(watch, line0, count0, p, at)
      && (forall j | i <= j < at :: !Decides(watch, line0, count0, p, j))
      && hits == Hits(watch.keywords, TailLine(line0 + p[..at]))
      && line == (if hits != {} then TailLine(line0 + p[..at]) else [])
      && count == CountAfter(watch, count0, Newlines(p[..at]) + if hits != {} then 0 else 1)
  }

  lemma {:induction false} ScanFinds(watch: Watch, line0: Text, count0: int32, p: Text, i: nat)
    requires i <= |p|
    requires BelowLimit(watch, count0)
    requires Limited(watch) ==> count0 + Newlines(p[..i]) <= watch.maxLines
    ensures Finds(watch, line0, count0, p, i,
                  ScanFrom(watch, TailLine(line0 + p[..i]), CountAfter(watch, count0, Newlines(p[..i])), p, i))
    decreases |p| - i
  {
    hide TailLine, Newlines, CountAfter, OverLimit, Bump, Hits;
    assert p[..|p|] == p;
    if i < |p| {
      var n := Newlines(p[..i]);
      assert p[..i + 1] == p[..i] + [p[i]];
      assert line0 + p[..i + 1] == (line0 + p[..i]) + [p[i]];
      SnocLine(p[..i], p[i]);
      SnocLine(line0 + p[..i], p[i]);
      CountOneMore(watch, count0, n);
      if !Decides(watch, line0, count0, p, i) {
        ScanFinds(watch, line0, count0, p, i + 1);
      }
    }
  }

  /**
   A report is made exactly at the first newline whose line has a keyword or is one too
   many, the keyword taking priority; without one, the pending line and the counter are
   what the text says.
   */
  lemma ReportIsFirstDecision(watch: Watch, line: Text, count: int32, p: Text)
    requires NEWLINE !in line && BelowLimit(watch, count)
    ensures Finds(watch, line, count, p, 0, ScanChunk(watch, line, count, p))
    ensures ScanChunk(watch, line, count, p).Report? <==> exists i :: Decides(watch, line, count, p, i)
  {
    TailLineNoNewline(line);
    assert p[..0] == [];
    assert line + p[..0] == line;
    ScanFinds(watch, line, count, p, 0);
  }

  // ----- What is looked for and reported, in plain terms.

  lemma ContainsIff(text: Text, word: Text)
    ensures Contains(text, word) <==> exists a, b :: text == a + word + b
  {
    if Contains(text, word) {
      var i: nat :| i <= |text| && OccursAt(text, word, i);
      assert text == text[..i] + word + text[i + |word|..];
    }
    forall a, b | text == a + word + b ensures Contains(text, word) {
      assert OccursAt(text, word, |a|);
    }
  }

  /** The keywords of a line are those handed in that stand anywhere in it, and the limit is the one handed in, cut to 32 bits. */
  lemma WatchedForIff(keywords: seq<Text>, maxLines: int, line: Text)
    ensures forall k :: k in Hits(WatchFor(keywords, maxLines).keywords, line)
                        <==> k in keywords && exists a, b :: line == a + k + b
    ensures (WatchFor(keywords, maxLines).maxLines - maxLines) % 0x1_0000_0000 == 0
  {
    forall k
      ensures k in Hits(WatchFor(keywords, maxLines).keywords, line) <==> k in keywords && exists a, b :: line == a + k + b
    {
      ContainsIff(line, k);
    }
  }

  lemma {:induction false} ScanWithoutNewline(watch: Watch, line: Text, count: int32, p: Text, i: nat)
    requires i <= |p| && NEWLINE !in p
    ensures ScanFrom(watch, line, count, p, i) == Quiet(line + p[i..], count)
    decreases |p| - i
  {
    if i < |p| {
      ScanWithoutNewline(watch, line + [p[i]], count, p, i + 1);
      assert line + [p[i]] + p[i + 1..] == line + p[i..];
    } else {
      assert line + p[i..] == line;
    }
  }

  /** A line with a keyword between any two texts is reported at its newline, whatever the count, and with the code 90510. */
  lemma KeywordLineIsReported(keywords: seq<Text>, maxLines: int, count: int32, word: Text, a: Text, b: Text)
    requires word in keywords && NEWLINE !in a + word + b
    ensures var scan := ScanChunk(WatchFor(keywords, maxLines), [], count, a + word + b + [NEWLINE]);
            && scan.Report? && scan.at == |a + word + b| && word in scan.hits
            && (forall r | Reports(scan, r) :: r.code == 90510) && Reports(scan, ExitResult(90510, word))
  {
    hide Hits, WatchFor;
    var watch, line := WatchFor(keywords, maxLines), a + word + b;
    WatchedForIff(keywords, maxLines, line);
    ScanWithoutNewline(watch, [], count, line, 0);
    assert [] + line[0..] == line;
    ScanSplit(watch, [], count, line, [NEWLINE]);
    assert word in Hits(watch.keywords, line);
  }

  /** A line too many without any keyword is reported with the code 90509 and no text. */
  lemma LimitIsReported(maxLines: int32, count: int32, line: Text)
    requires 0 < maxLines < 0x7FFF_FFFF && count == maxLines && NEWLINE !in line
    ensures var scan := ScanChunk(WatchFor([], maxLines), [], count, line + [NEWLINE]);
            scan.Report? && scan.at == |line| && forall r :: Reports(scan, r) <==> r == ExitResult(90509, [])
  {
    var watch := WatchFor([], maxLines);
    ScanWithoutNewline(watch, [], count, line, 0);
    assert [] + line[0..] == line;
    ScanSplit(watch, [], count, line, [NEWLINE]);
    assert Hits(watch.keywords, line) == {};
  }
}
