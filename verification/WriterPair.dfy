/**
 The two condition writers of one start-up. The demultiplexer writes to them in turn;
 they keep a pending line each and share the line counter.
 */
module WriterPair {
  import opened Frames
  import opened ConditionWriter
  import opened StreamCopy

  /** The pending lines of both writers and their common counter. */
  datatype Pending = Pending(out: Text, err: Text, count: int32) {
    function LineOf(dest: Dest): Text {
      if dest.Out? then out else err
    }

    /** The state after a scan of a chunk written to `dest`. */
    function After(dest: Dest, scan: Scan): Pending {
      if dest.Out? then Pending(scan.line, err, scan.count) else Pending(out, scan.line, scan.count)
    }
  }

  const FRESH := Pending([], [], 0)

  function ScanWrite(watch: Watch, st: Pending, w: Write): Scan {
    ScanChunk(watch, st.LineOf(w.dest), st.count, w.payload)
  }

  /** Either all writes went by unreported, or write `index` made the first report. */
  datatype Watched = Unreported(state: Pending) | Reported(index: nat, scan: Scan)

  function WatchAll(watch: Watch, ws: seq<Write>): Watched {
    if ws == [] then Unreported(FRESH)
    else
      var w := ws[|ws| - 1];
      match WatchAll(watch, ws[..|ws| - 1])
      case Unreported(st) =>
        var scan := ScanWrite(watch, st, w);
        if scan.Quiet? then Unreported(st.After(w.dest, scan)) else Reported(|ws| - 1, scan)
      case Reported(index, scan) => Reported(index, scan)
  }

  /** The newlines of both streams together. */
  function TotalNewlines(ws: seq<Write>): nat {
    Newlines(Received(Out, ws)) + Newlines(Received(Err, ws))
  }

  /** `line` stands in `text` as a complete line, ended by a newline. */
  ghost predicate HasLine(text: Text, line: Text) {
    exists pre, post :: IsLineAt(text, pre, line, post)
  }

  ghost predicate IsLineAt(text: Text, pre: Text, line: Text, post: Text) {
    && text == pre + line + [NEWLINE] + post
    && (pre == [] || pre[|pre| - 1] == NEWLINE)
    && NEWLINE !in line
  }

  /** A report ends the watch: what is written later does not change it. */
  lemma {:induction false} FirstReportStays(watch: Watch, ws: seq<Write>, more: seq<Write>)
    requires WatchAll(watch, ws).Reported?
    ensures WatchAll(watch, ws + more) == WatchAll(watch, ws)
  {
    if more == [] {
      assert ws + more == ws;
    } else {
      FirstReportStays(watch, ws, more[..|more| - 1]);
      assert (ws + more)[..|ws + more| - 1] == ws + more[..|more| - 1];
    }
  }

  lemma WatchOneMore(watch: Watch, ws: seq<Write>, k: nat)
    requires k < |ws| && WatchAll(watch, ws[..k]).Unreported?
    ensures var st, scan := WatchAll(watch, ws[..k]).state, ScanWrite(watch, WatchAll(watch, ws[..k]).state, ws[k]);
            WatchAll(watch, ws[..k + 1])
            == if scan.Quiet? then Unreported(st.After(ws[k].dest, scan)) else Reported(k, scan)
  {
    assert ws[..k + 1][..k] == ws[..k];
  }

  /**
   The two writers of a start-up, made as the deployment makes them and fed by the
   demultiplexer until one reports or the wrapped writer does not take a whole payload.
   */
  method WatchUntilReport(inner: InnerWriter, maxLines: int, keywords: seq<Text>, ws: seq<Write>)
    returns (stdout: Writer, stderr: Writer, counter: LineCounter, exitChan: ExitChannel, fed: nat, broken: bool)
    modifies inner
    ensures fed <= |ws| && (broken <==> fed < |ws| && exitChan.sent == [])
    ensures Working(old(inner.answers)) ==> !broken
    ensures match WatchAll(WatchFor(keywords, maxLines), ws[..fed])
            case Unreported(st) =>
              exitChan.sent == [] && st == Pending(stdout.lastLineBytes, stderr.lastLineBytes, counter.value)
            case Reported(index, scan) =>
              index + 1 == fed && |exitChan.sent| == 1 && Reports(scan, exitChan.sent[0])
    // So the first report is that of all the writes, however many follow it.
    ensures exitChan.sent != [] ==>
              var watched := WatchAll(WatchFor(keywords, maxLines), ws);
              watched.Reported? && Reports(watched.scan, exitChan.sent[0])
  {
    hide ScanChunk, WatchAll, Reports;
    ghost var watch := WatchFor(keywords, maxLines);
    counter := new LineCounter();
    exitChan := new ExitChannel();
    stdout := new Writer(inner, maxLines, counter, exitChan, keywords);
    stderr := new Writer(inner, maxLines, counter, exitChan, keywords);
    broken, fed := false, 0;
    NothingWatched(watch, ws);
    while fed < |ws|
      invariant fed <= |ws| && !broken && exitChan.sent == []
      invariant WatchAll(watch, ws[..fed])
             == Unreported(Pending(stdout.lastLineBytes, stderr.lastLineBytes, counter.value))
      invariant Working(old(inner.answers)) ==> Working(inner.answers)
    {
      var w := ws[fed];
      WatchOneMore(watch, ws, fed);
      var n, failed;
      if w.dest.Out? {
        n, failed := stdout.Write(w.payload);
      } else {
        n, failed := stderr.Write(w.payload);
      }
      if failed {
        broken := true;
        return;
      }
      fed := fed + 1;
      if exitChan.sent != [] {
        FirstReportStays(watch, ws[..fed], ws[fed..]);
        assert ws[..fed] + ws[fed..] == ws;
        return;
      }
      if n != |w.payload| && fed < |ws| {
        broken := true;
        return;
      }
    }
    assert ws[..fed] == ws;
  }

  /**
   The demultiplexer in front of the two writers. Up to the first report neither writer holds
   up the copy, so the frames are cut out first and then given to the writers in order.
   The first report is the one the frames of the stream have, if they have one.
   */
  method CopyAndWatch(src: Reader, inner: InnerWriter, maxLines: int, keywords: seq<Text>)
    returns (stdout: Writer, stderr: Writer, counter: LineCounter, exitChan: ExitChannel, ghost cut: nat)
    modifies src, inner
    // Only an error that arrives together with the last bytes hides those bytes.
    ensures cut <= |old(src.Remaining())|
    ensures src.ending.Eof? || !src.eager ==> cut == |old(src.Remaining())|
    ensures exitChan.sent != [] ==>
              var watched := WatchAll(WatchFor(keywords, maxLines), Parse(old(src.Remaining())[..cut]).writes);
              watched.Reported? && |exitChan.sent| == 1 && Reports(watched.scan, exitChan.sent[0])
    ensures exitChan.sent == [] && Working(old(inner.answers)) ==>
              WatchAll(WatchFor(keywords, maxLines), Parse(old(src.Remaining())[..cut]).writes)
              == Unreported(Pending(stdout.lastLineBytes, stderr.lastLineBytes, counter.value))
  {
    hide WatchAll, Reports, Parse, Deliver, Finish;
    ghost var input := src.Remaining();
    var ctx := new Context([]);
    var dst := new Destinations([]);
    var written, error;
    ghost var peak;
    written, error, cut, peak := StdCopy(ctx, dst, src);
    WorkingRunDeliversWholeFrames(Parse(input[..cut]), src.ending, [], [], 0);
    var fed, broken;
    stdout, stderr, counter, exitChan, fed, broken := WatchUntilReport(inner, maxLines, keywords, dst.log);
    assert dst.log == Parse(input[..cut]).writes + Finish(Parse(input[..cut]).stop, src.ending, TotalBytes(Parse(input[..cut]).writes)).log;
    FinishWritesNothing(Parse(input[..cut]).stop, src.ending, TotalBytes(Parse(input[..cut]).writes));
    assert dst.log[..|dst.log|] == dst.log;
  }

  lemma NothingWatched(watch: Watch, ws: seq<Write>)
    ensures WatchAll(watch, ws[..0]) == Unreported(FRESH)
  {
  }

  // ----- Facts about lines of concatenated text.

  lemma {:induction false} ReceivedAppend(dest: Dest, a: seq<Write>, b: seq<Write>)
    ensures Received(dest, a + b) == Received(dest, a) + Received(dest, b)
  {
    if a == [] {
      assert a + b == b;
    } else {
      assert (a + b)[1..] == a[1..] + b;
      ReceivedAppend(dest, a[1..], b);
    }
  }

  lemma ReceivedOne(dest: Dest, w: Write)
    ensures Received(dest, [w]) == if w.dest == dest then w.payload else []
  {
  }

  lemma {:induction false} NewlinesAppend(a: Text, b: Text)
    ensures Newlines(a + b) == Newlines(a) + Newlines(b)
  {
    if b == [] {
      assert a + b == a;
    } else {
      NewlinesAppend(a, b[..|b| - 1]);
      assert (a + b)[..|a + b| - 1] == a + b[..|b| - 1];
    }
  }

  /** Only the text behind the last newline matters to the line that follows. */
  lemma {:induction false} TailLineAppend(a: Text, b: Text)
    ensures TailLine(TailLine(a) + b) == TailLine(a + b)
  {
    if b == [] {
      assert a + b == a && TailLine(a) + b == TailLine(a);
      TailLineHasNoNewline(a);
      TailLineNoNewline(TailLine(a));
    } else {
      var c, front := b[|b| - 1], b[..|b| - 1];
      TailLineAppend(a, front);
      assert a + b == (a + front) + [c];
      assert TailLine(a) + b == (TailLine(a) + front) + [c];
      SnocLine(a + front, c);
      SnocLine(TailLine(a) + front, c);
    }
  }

  lemma {:induction false} TailLineHasNoNewline(s: Text)
    ensures NEWLINE !in TailLine(s)
  {
    if s != [] && s[|s| - 1] != NEWLINE {
      TailLineHasNoNewline(s[..|s| - 1]);
    }
  }

  /** What stands before the last line. */
  lemma {:induction false} BeforeTailLine(s: Text) returns (pre: Text)
    ensures s == pre + TailLine(s) && (pre == [] || pre[|pre| - 1] == NEWLINE)
  {
    if s == [] || s[|s| - 1] == NEWLINE {
      pre := s;
    } else {
      pre := BeforeTailLine(s[..|s| - 1]);
    }
  }

  /** The text up to a newline ends in a complete line. */
  lemma CompletedLine(before: Text, post: Text)
    ensures HasLine(before + [NEWLINE] + post, TailLine(before))
  {
    TailLineHasNoNewline(before);
    var pre := BeforeTailLine(before);
    assert IsLineAt(before + [NEWLINE] + post, pre, TailLine(before), post);
  }

  /** The k-th newline of a text. */
  lemma {:induction false} NthNewline(p: Text, k: nat) returns (i: nat)
    requires 1 <= k <= Newlines(p)
    ensures i < |p| && p[i] == NEWLINE && Newlines(p[..i]) == k - 1
  {
    var front := p[..|p| - 1];
    if k <= Newlines(front) {
      i := NthNewline(front, k);
      assert front[..i] == p[..i];
    } else {
      i := |p| - 1;
    }
  }

  lemma CountAfterTwice(watch: Watch, n: nat, m: nat)
    ensures CountAfter(watch, CountAfter(watch, 0, n), m) == CountAfter(watch, 0, n + m)
  {
  }

  // ----- What the pair does, over every sequence of writes.

  /** The pending state says exactly what both streams contain. */
  ghost predicate Describes(watch: Watch, st: Pending, ws: seq<Write>) {
    && st.out == TailLine(Received(Out, ws))
    && st.err == TailLine(Received(Err, ws))
    && st.count == CountAfter(watch, 0, TotalNewlines(ws))
    && (Limited(watch) ==> TotalNewlines(ws) <= watch.maxLines)
  }

  /** Once more newlines than the limit have gone by, one of them decided. */
  lemma PassingNewlineDecides(watch: Watch, line: Text, count: int32, p: Text, k: nat) returns (i: nat)
    requires Limited(watch) && k <= |p|
    requires count <= watch.maxLines < count + Newlines(p[..k])
    ensures i < k && Decides(watch, line, count, p, i)
  {
    i := NthNewline(p[..k], watch.maxLines + 1 - count);
    assert p[..k][..i] == p[..i];
  }

  lemma PendingCount(watch: Watch, st: Pending, ws: seq<Write>)
    requires Describes(watch, st, ws) && Limited(watch)
    ensures st.count == TotalNewlines(ws)
  {
  }

  lemma PendingBelowLimit(watch: Watch, st: Pending, ws: seq<Write>)
    requires Describes(watch, st, ws)
    ensures BelowLimit(watch, st.count)
  {
  }

  /** One quiet write keeps the description. */
  lemma DescribesNext(watch: Watch, st: Pending, ws: seq<Write>, w: Write)
    requires Describes(watch, st, ws)
    ensures NEWLINE !in st.LineOf(w.dest) && BelowLimit(watch, st.count)
    ensures ScanWrite(watch, st, w).Quiet? ==>
              Describes(watch, st.After(w.dest, ScanWrite(watch, st, w)), ws + [w])
  {
    hide TailLine, Newlines, Received, CountAfter, ScanFrom, Hits;
    var text := Received(w.dest, ws);
    TailLineHasNoNewline(text);
    PendingBelowLimit(watch, st, ws);
    var line := st.LineOf(w.dest);
    var scan := ScanWrite(watch, st, w);
    ReportIsFirstDecision(watch, line, st.count, w.payload);
    if scan.Quiet? {
      forall d ensures Received(d, ws + [w]) == Received(d, ws) + if w.dest == d then w.payload else [] {
        ReceivedAppend(d, ws, [w]);
        ReceivedOne(d, w);
      }
      assert forall d :: d != w.dest ==> Received(d, ws) + [] == Received(d, ws);
      TailLineAppend(text, w.payload);
      NewlinesAppend(text, w.payload);
      CountAfterTwice(watch, TotalNewlines(ws), Newlines(w.payload));
      assert TotalNewlines(ws + [w]) == TotalNewlines(ws) + Newlines(w.payload);
      if Limited(watch) {
        PendingCount(watch, st, ws);
        if TotalNewlines(ws + [w]) > watch.maxLines {
          assert w.payload[..|w.payload|] == w.payload;
          var _ := PassingNewlineDecides(watch, line, st.count, w.payload, |w.payload|);
        }
      }
    }
  }

  lemma {:induction false} UnreportedDescribes(watch: Watch, ws: seq<Write>)
    ensures WatchAll(watch, ws).Unreported? ==> Describes(watch, WatchAll(watch, ws).state, ws)
  {
    if ws != [] {
      var init := ws[..|ws| - 1];
      UnreportedDescribes(watch, init);
      if WatchAll(watch, init).Unreported? {
        DescribesNext(watch, WatchAll(watch, init).state, init, ws[|ws| - 1]);
        assert init + [ws[|ws| - 1]] == ws;
      }
    }
  }

  /** The text of the reporting stream up to the reporting newline. */
  function TextBefore(ws: seq<Write>, index: nat, at: nat): Text
    requires index < |ws| && at <= |ws[index].payload|
  {
    Received(ws[index].dest, ws[..index]) + ws[index].payload[..at]
  }

  /** What the first report rests on. */
  ghost predicate Justified(watch: Watch, ws: seq<Write>, index: nat, scan: Scan) {
    && index < |ws|
    && scan.Report? && scan.at < |ws[index].payload| && ws[index].payload[scan.at] == NEWLINE
    && scan.hits == Hits(watch.keywords, TailLine(TextBefore(ws, index, scan.at)))
    && (scan.hits == {} ==>
          Limited(watch)
          && TotalNewlines(ws[..index]) + Newlines(ws[index].payload[..scan.at + 1]) == watch.maxLines + 1)
  }

  lemma ReportJustified(watch: Watch, st: Pending, ws: seq<Write>, w: Write)
    requires Describes(watch, st, ws)
    requires ScanWrite(watch, st, w).Report?
    ensures Justified(watch, ws + [w], |ws|, ScanWrite(watch, st, w))
  {
    hide TailLine, Newlines, Received, CountAfter, ScanFrom, Hits;
    var scan := ScanWrite(watch, st, w);
    var line, p := st.LineOf(w.dest), w.payload;
    DescribesNext(watch, st, ws, w);
    ReportIsFirstDecision(watch, line, st.count, p);
    assert (ws + [w])[..|ws|] == ws;
    TailLineAppend(Received(w.dest, ws), p[..scan.at]);
    assert p[..scan.at + 1] == p[..scan.at] + [NEWLINE];
    SnocLine(p[..scan.at], NEWLINE);
    if scan.hits == {} {
      PendingCount(watch, st, ws);
      if TotalNewlines(ws) + Newlines(p[..scan.at]) > watch.maxLines {
        var _ := PassingNewlineDecides(watch, line, st.count, p, scan.at);
      }
    }
  }

  /**
   The first report of the pair, for every sequence of writes to either side: it is made
   at a newline that completes a line with a keyword, naming exactly the keywords of that
   line, or else at the newline number `maxLines + 1` of both streams together.
   */
  lemma {:induction false} FirstReportJustified(watch: Watch, ws: seq<Write>)
    ensures WatchAll(watch, ws).Reported? ==>
              Justified(watch, ws, WatchAll(watch, ws).index, WatchAll(watch, ws).scan)
  {
    if ws != [] {
      var init := ws[..|ws| - 1];
      FirstReportJustified(watch, init);
      UnreportedDescribes(watch, init);
      assert init + [ws[|ws| - 1]] == ws;
      if WatchAll(watch, init).Unreported? && WatchAll(watch, ws).Reported? {
        ReportJustified(watch, WatchAll(watch, init).state, init, ws[|ws| - 1]);
      } else if WatchAll(watch, ws).Reported? {
        var r := WatchAll(watch, init);
        assert init[..r.index] == ws[..r.index];
      }
    }
  }

  /**
   The shared limit: as long as nothing is reported the counter is the number of newlines
   seen by both writers and does not exceed the limit; so once more newlines than the
   limit have been written, a report has been made.
   */
  lemma SharedLimit(watch: Watch, ws: seq<Write>)
    requires Limited(watch)
    ensures WatchAll(watch, ws).Unreported? ==>
              WatchAll(watch, ws).state.count == TotalNewlines(ws) <= watch.maxLines
    ensures TotalNewlines(ws) > watch.maxLines ==> WatchAll(watch, ws).Reported?
  {
    UnreportedDescribes(watch, ws);
  }

  /**
   The limit report needs a limit strictly between zero and the largest 32-bit integer:
   without keywords, a pair reports within some sequence of writes if and only if its
   limit is such. At the largest integer the counter wraps around before it can pass.
   */
  lemma LimitCanFire(watch: Watch)
    requires watch.keywords == {}
    ensures (exists ws :: WatchAll(watch, ws).Reported?) <==> Limited(watch)
  {
    if Limited(watch) {
      var p := seq(watch.maxLines + 1, _ => NEWLINE);
      AllNewlines(p);
      var ws := [Write(Out, p)];
      ReceivedOne(Out, ws[0]);
      SharedLimit(watch, ws);
      assert WatchAll(watch, ws).Reported?;
    } else {
      forall ws ensures WatchAll(watch, ws).Unreported? {
        FirstReportJustified(watch, ws);
      }
    }
  }

  lemma {:induction false} AllNewlines(p: Text)
    requires forall i | 0 <= i < |p| :: p[i] == NEWLINE
    ensures Newlines(p) == |p|
  {
    if p != [] {
      AllNewlines(p[..|p| - 1]);
    }
  }

  /** A justified keyword report: a complete line of that stream contains each named keyword. */
  lemma JustifiedLine(watch: Watch, ws: seq<Write>, index: nat, scan: Scan, all: seq<Write>)
    requires Justified(watch, ws, index, scan) && ws <= all
    ensures HasLine(Received(ws[index].dest, all), TailLine(TextBefore(ws, index, scan.at)))
  {
    hide TailLine, HasLine, Received, Hits;
    var w := ws[index];
    var later := all[index + 1..];
    assert all == ws[..index] + ([w] + later);
    ReceivedAppend(w.dest, ws[..index], [w] + later);
    ReceivedAppend(w.dest, [w], later);
    ReceivedOne(w.dest, w);
    var before := TextBefore(ws, index, scan.at);
    var post := w.payload[scan.at + 1..] + Received(w.dest, later);
    assert Received(w.dest, all) == before + [NEWLINE] + post;
    CompletedLine(before, post);
  }
}
