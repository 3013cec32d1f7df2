/**
 The multiplexed stream of a container: frames with an 8-byte header (one stream
 byte, three ignored bytes, a 4-byte big-endian length) followed by the payload.

 `CopyRun` says, on plain byte sequences, what one demultiplexing run does. The
 imperative demultiplexer is proved against it in module `StreamCopy`.
 */
module Frames {

  type byte = x: int | 0 <= x < 256

  type Text = seq<byte>

  const PREFIX_LEN: nat := 8

  const SIZE_INDEX: nat := 4

  const TWO_TO_THE_32: nat := 0x1_0000_0000

  /** Where a payload goes. */
  datatype Dest = Out | Err

  datatype Write = Write(dest: Dest, payload: Text)

  /** How the reader ends once its bytes are used up. */
  datatype Ending = Eof | Broken(code: int)

  /** What one call of a destination's Write answers. */
  datatype WriteAnswer =
    | Full
    | Partial(count: nat)
    | Failed(count: nat, code: int)

  datatype CopyError =
    | NoError
    | ReadFailure(code: int)
    | UnrecognizedHeader(kind: byte)
    | DaemonError(message: Text)
    | WriteFailure(code: int)
    | ShortWrite

  /** Everything a run does: the writes in order, the count returned, the error. */
  datatype CopyResult = CopyResult(log: seq<Write>, written: nat, error: CopyError)

  function DecodeSize(b: Text): nat
    requires |b| == 4
  {
    ((b[0] as int * 256 + b[1]) * 256 + b[2]) * 256 + b[3]
  }

  function EncodeSize(n: nat): Text
    requires n < TWO_TO_THE_32
  {
    [n / 0x100_0000, n / 0x1_0000 % 256, n / 0x100 % 256, n % 256]
  }

  lemma DecodeEncodeSize(n: nat)
    requires n < TWO_TO_THE_32
    ensures DecodeSize(EncodeSize(n)) == n
  {
    var n1 := n / 0x100;
    var n2 := n1 / 0x100;
    assert n / 0x1_0000 == n2;
    assert n / 0x100_0000 == n2 / 0x100;
  }

  lemma EncodeDecodeSize(b: Text)
    requires |b| == 4
    ensures DecodeSize(b) < TWO_TO_THE_32
    ensures EncodeSize(DecodeSize(b)) == b
  {
    var n := DecodeSize(b);
    var n1 := (b[0] as int * 256 + b[1]) * 256 + b[2];
    var n2 := b[0] as int * 256 + b[1];
    assert n == n1 * 256 + b[3];
    assert n / 0x100 == n1 && n % 256 == b[3];
    assert n1 / 256 == n2 && n1 % 256 == b[2];
    assert n / 0x1_0000 == n2;
    assert n / 0x100_0000 == b[0];
  }

  /** The declared payload size of the frame whose header starts `s`. */
  function FrameSize(s: Text): nat
    requires |s| >= PREFIX_LEN
  {
    DecodeSize(s[SIZE_INDEX..SIZE_INDEX + 4])
  }

  /** The side a stream byte stands for. */
  function DestOf(kind: byte): Dest {
    if kind == 2 then Err else Out
  }

  /** What the bytes at the front of the stream amount to. */
  datatype Front =
    | NeedMore
    | BadHeader(kind: byte)
    | SystemError(message: Text)
    | Frame(write: Write)

  /** The stream byte is judged as soon as the header is complete; the body is then awaited. */
  function FrontOf(s: Text): Front {
    if |s| < PREFIX_LEN then NeedMore
    else if s[0] > 3 then BadHeader(s[0])
    else if |s| < FrameSize(s) + PREFIX_LEN then NeedMore
    else
      var payload := s[PREFIX_LEN..FrameSize(s) + PREFIX_LEN];
      if s[0] == 3 then SystemError(payload)
      else Frame(Write(DestOf(s[0]), payload))
  }

  function Concat(chunks: seq<Text>): Text {
    if chunks == [] then [] else chunks[0] + Concat(chunks[1..])
  }

  function Min(a: nat, b: nat): nat {
    if a < b then a else b
  }

  function FirstAnswer(answers: seq<WriteAnswer>): WriteAnswer {
    if answers == [] then Full else answers[0]
  }

  /** A list of answers or polls after its first element is used; the empty list stays empty. */
  function Rest<T>(s: seq<T>): seq<T> {
    if s == [] then [] else s[1..]
  }

  /** The number of payload bytes a destination takes. */
  function Taken(a: WriteAnswer, size: nat): nat {
    if a.Full? then size else Min(a.count, size)
  }

  function AnswerError(a: WriteAnswer, size: nat): CopyError {
    match a
    case Full => NoError
    case Partial(n) => if n == size then NoError else ShortWrite
    case Failed(_, code) => WriteFailure(code)
  }

  /** Why the parser stops: the stream ran out inside a frame, or a header or frame ends it. */
  datatype Stop =
    | Exhausted
    | StoppedBad(kind: byte)
    | StoppedSystem(message: Text)

  datatype Parsed = Parsed(writes: seq<Write>, stop: Stop)

  /** The reference parser: all complete frames at the front of `s`, and why there are no more. */
  function Parse(s: Text): Parsed
    decreases |s|
  {
    match FrontOf(s)
    case NeedMore => Parsed([], Exhausted)
    case BadHeader(kind) => Parsed([], StoppedBad(kind))
    case SystemError(message) => Parsed([], StoppedSystem(message))
    case Frame(w) =>
      var rest := Parse(s[|w.payload| + PREFIX_LEN..]);
      Parsed([w] + rest.writes, rest.stop)
  }

  /** What is returned once all complete frames are delivered; a truncated last frame is dropped. */
  function Finish(stop: Stop, ending: Ending, written: nat): CopyResult {
    match stop
    case Exhausted =>
      if ending.Eof? then CopyResult([], written, NoError) else CopyResult([], 0, ReadFailure(ending.code))
    case StoppedBad(kind) => CopyResult([], 0, UnrecognizedHeader(kind))
    case StoppedSystem(message) => CopyResult([], written, DaemonError(message))
  }

  function Prepend(log: seq<Write>, r: CopyResult): CopyResult {
    r.(log := log + r.log)
  }

  /**
   Delivering parsed frames: `answers` are the destinations' answers to the successive
   writes, `polls` the results of asking, after each frame, whether the run has been
   cancelled. An exhausted list means working destinations and no cancellation.
   */
  function Deliver(p: Parsed, ending: Ending, answers: seq<WriteAnswer>, polls: seq<bool>, written: nat): CopyResult
    decreases |p.writes|
  {
    if p.writes == [] then Finish(p.stop, ending, written)
    else
      var w := p.writes[0];
      var size := |w.payload|;
      var a := FirstAnswer(answers);
      var entry := Write(w.dest, w.payload[..Taken(a, size)]);
      if AnswerError(a, size) != NoError then CopyResult([entry], 0, AnswerError(a, size))
      else if polls != [] && polls[0] then CopyResult([entry], written + size, NoError)
      else Prepend([entry], Deliver(p.(writes := p.writes[1..]), ending, Rest(answers), Rest(polls), written + size))
  }

  /** One run over the stream `s`. */
  function CopyRun(s: Text, ending: Ending, answers: seq<WriteAnswer>, polls: seq<bool>): CopyResult {
    Deliver(Parse(s), ending, answers, polls, 0)
  }

  /** The bytes one destination receives. */
  function Received(dest: Dest, log: seq<Write>): Text {
    if log == [] then []
    else (if log[0].dest == dest then log[0].payload else []) + Received(dest, log[1..])
  }

  function TotalBytes(log: seq<Write>): nat {
    if log == [] then 0 else |log[0].payload| + TotalBytes(log[1..])
  }

  /** The largest payload size declared by any header the run over `s` looks at. */
  function LargestDeclared(s: Text): nat
    decreases |s|
  {
    if |s| < PREFIX_LEN || s[0] > 3 then 0
    else if FrontOf(s).Frame? then
      Max(FrameSize(s), LargestDeclared(s[FrameSize(s) + PREFIX_LEN..]))
    else FrameSize(s)
  }

  function Max(a: nat, b: nat): nat {
    if a < b then b else a
  }

  // ----- The encoding side: raw frames as the daemon writes them.

  /** A frame as it stands on the wire; the three padding bytes carry no meaning. */
  datatype RawFrame = RawFrame(kind: byte, padding: Text, payload: Text)

  /** A frame that is delivered to one of the two destinations. */
  ghost predicate Deliverable(f: RawFrame) {
    f.kind < 3 && |f.padding| == 3 && |f.payload| < TWO_TO_THE_32
  }

  function WriteOf(f: RawFrame): Write {
    Write(DestOf(f.kind), f.payload)
  }

  function WritesOf(fs: seq<RawFrame>): (ws: seq<Write>)
    ensures |ws| == |fs|
  {
    if fs == [] then [] else [WriteOf(fs[0])] + WritesOf(fs[1..])
  }

  ghost function Encode(f: RawFrame): Text
    requires Deliverable(f)
  {
    [f.kind] + f.padding + EncodeSize(|f.payload|) + f.payload
  }

  ghost function Multiplex(fs: seq<RawFrame>): Text
    requires forall f | f in fs :: Deliverable(f)
  {
    if fs == [] then [] else Encode(fs[0]) + Multiplex(fs[1..])
  }

  lemma FrontOfEncoded(f: RawFrame, tail: Text)
    requires Deliverable(f)
    ensures FrontOf(Encode(f) + tail) == Frame(WriteOf(f))
    ensures (Encode(f) + tail)[|f.payload| + PREFIX_LEN..] == tail
  {
    var s := Encode(f) + tail;
    var size := EncodeSize(|f.payload|);
    assert |Encode(f)| == |f.payload| + PREFIX_LEN;
    assert s[SIZE_INDEX..SIZE_INDEX + 4] == size;
    DecodeEncodeSize(|f.payload|);
    assert FrameSize(s) == |f.payload|;
    assert s[PREFIX_LEN..|f.payload| + PREFIX_LEN] == f.payload;
  }

  lemma ParseEncoded(f: RawFrame, more: Text)
    requires Deliverable(f)
    ensures Parse(Encode(f) + more) == Parsed([WriteOf(f)] + Parse(more).writes, Parse(more).stop)
  {
    FrontOfEncoded(f, more);
  }

  /**
   Parsing undoes multiplexing, for every list of frames, every padding and every tail:
   exactly the frames come out, in order and each for its own side, and then those of
   the tail.
   */
  lemma {:induction false} MultiplexThenParse(fs: seq<RawFrame>, tail: Text)
    requires forall f | f in fs :: Deliverable(f)
    ensures Parse(Multiplex(fs) + tail) == Parsed(WritesOf(fs) + Parse(tail).writes, Parse(tail).stop)
  {
    if fs == [] {
      assert Multiplex(fs) + tail == tail;
    } else {
      var more := Multiplex(fs[1..]) + tail;
      MultiplexThenParse(fs[1..], tail);
      assert Multiplex(fs) + tail == Encode(fs[0]) + more;
      ParseEncoded(fs[0], more);
      AppendOne(WriteOf(fs[0]), WritesOf(fs[1..]), Parse(tail).writes);
    }
  }

  lemma AppendOne(w: Write, a: seq<Write>, b: seq<Write>)
    ensures [w] + (a + b) == ([w] + a) + b
  {
  }

  /** The wire frames at the front of `s`, as far as they are complete and deliverable. */
  ghost function WireFrames(s: Text): seq<RawFrame>
    decreases |s|
  {
    if FrontOf(s).Frame? then
      [WireFrame(s)] + WireFrames(s[FrameSize(s) + PREFIX_LEN..])
    else []
  }

  ghost function WireFrame(s: Text): RawFrame
    requires FrontOf(s).Frame?
  {
    RawFrame(s[0], s[1..SIZE_INDEX], s[PREFIX_LEN..FrameSize(s) + PREFIX_LEN])
  }

  /** The part of `s` behind its complete frames. */
  function Tail(s: Text): Text
    decreases |s|
  {
    if FrontOf(s).Frame? then Tail(s[FrameSize(s) + PREFIX_LEN..]) else s
  }

  lemma EncodeWireFrame(s: Text)
    requires FrontOf(s).Frame?
    ensures Deliverable(WireFrame(s))
    ensures s == Encode(WireFrame(s)) + s[FrameSize(s) + PREFIX_LEN..]
  {
    EncodeDecodeSize(s[SIZE_INDEX..SIZE_INDEX + 4]);
  }

  /**
   The other direction: every stream is a multiplexed list of deliverable frames
   followed by a tail at which the parser stops, so what is delivered is always
   what some sender multiplexed.
   */
  lemma {:induction false} EveryStreamIsMultiplexed(s: Text)
    ensures forall f | f in WireFrames(s) :: Deliverable(f)
    ensures s == Multiplex(WireFrames(s)) + Tail(s)
    ensures !FrontOf(Tail(s)).Frame?
    ensures Parse(s) == Parsed(WritesOf(WireFrames(s)), Parse(Tail(s)).stop)
    decreases |s|
  {
    if FrontOf(s).Frame? {
      EncodeWireFrame(s);
      var rest := s[FrameSize(s) + PREFIX_LEN..];
      EveryStreamIsMultiplexed(rest);
      assert WireFrames(s)[1..] == WireFrames(rest);
    }
  }

  lemma FrontOfExtension(s: Text, more: Text)
    requires !FrontOf(s).NeedMore?
    ensures FrontOf(s + more) == FrontOf(s)
  {
    hide DecodeSize;
    assert (s + more)[SIZE_INDEX..SIZE_INDEX + 4] == s[SIZE_INDEX..SIZE_INDEX + 4];
    if s[0] <= 3 {
      var n := FrameSize(s) + PREFIX_LEN;
      assert (s + more)[PREFIX_LEN..n] == s[PREFIX_LEN..n];
    }
  }

  /** Bytes that arrive later never change the frames parsed already, nor a stop that was final. */
  lemma {:induction false} LaterBytesKeepFrames(s: Text, more: Text)
    ensures Parse(s).writes <= Parse(s + more).writes
    ensures Parse(s).stop != Exhausted ==> Parse(s + more) == Parse(s)
    decreases |s|
  {
    if !FrontOf(s).NeedMore? {
      FrontOfExtension(s, more);
      if FrontOf(s).Frame? {
        var n := |FrontOf(s).write.payload| + PREFIX_LEN;
        assert (s + more)[n..] == s[n..] + more;
        LaterBytesKeepFrames(s[n..], more);
      }
    }
  }

  // ----- Properties of every delivery.

  /** Answers under which every write succeeds in full. */
  ghost predicate Working(answers: seq<WriteAnswer>) {
    forall a | a in answers :: a.Full?
  }

  lemma TotalBytesOne(w: Write, log: seq<Write>)
    ensures TotalBytes([w] + log) == |w.payload| + TotalBytes(log)
  {
  }

  /**
   Conservation: a run that ends without an error, or with an error the daemon put
   into the stream, returns the exact number of bytes its destinations took; every
   other error returns zero.
   */
  lemma {:induction false} WrittenCountsDeliveredBytes(p: Parsed, ending: Ending, answers: seq<WriteAnswer>,
                                                       polls: seq<bool>, written: nat)
    ensures var r := Deliver(p, ending, answers, polls, written);
            if r.error.NoError? || r.error.DaemonError? then r.written == written + TotalBytes(r.log) else r.written == 0
    decreases |p.writes|
  {
    if p.writes != [] {
      var w := p.writes[0];
      var size := |w.payload|;
      var a := FirstAnswer(answers);
      var entry := Write(w.dest, w.payload[..Taken(a, size)]);
      TotalBytesOne(entry, []);
      if AnswerError(a, size) == NoError && !(polls != [] && polls[0]) {
        var rest := p.(writes := p.writes[1..]);
        WrittenCountsDeliveredBytes(rest, ending, Rest(answers), Rest(polls), written + size);
        TotalBytesOne(entry, Deliver(rest, ending, Rest(answers), Rest(polls), written + size).log);
      }
    }
  }

  /** Cancelling only cuts a run short: what was delivered is a prefix of the uncancelled delivery. */
  lemma {:induction false} CancelledRunIsPrefix(p: Parsed, ending: Ending, answers: seq<WriteAnswer>,
                                                polls: seq<bool>, written: nat)
    ensures Deliver(p, ending, answers, polls, written).log <= Deliver(p, ending, answers, [], written).log
    decreases |p.writes|
  {
    if p.writes != [] {
      var rest := p.(writes := p.writes[1..]);
      CancelledRunIsPrefix(rest, ending, Rest(answers), Rest(polls), written + |p.writes[0].payload|);
    }
  }

  lemma FinishWritesNothing(stop: Stop, ending: Ending, written: nat)
    ensures Finish(stop, ending, written).log == []
  {
  }

  /** The first step of a run whose first write succeeds in full. */
  lemma DeliverWorking(p: Parsed, ending: Ending, answers: seq<WriteAnswer>, polls: seq<bool>, written: nat)
    requires p.writes != [] && Working(answers)
    ensures var w, rest := p.writes[0], p.(writes := p.writes[1..]);
            && Working(Rest(answers)) && (true !in polls ==> true !in Rest(polls))
            && Deliver(p, ending, answers, polls, written)
               == if polls != [] && polls[0] then CopyResult([w], written + |w.payload|, NoError)
                  else Prepend([w], Deliver(rest, ending, Rest(answers), Rest(polls), written + |w.payload|))
  {
    assert FirstAnswer(answers).Full?;
    assert p.writes[0].payload[..|p.writes[0].payload|] == p.writes[0].payload;
  }

  lemma PrependOne(w: Write, log: seq<Write>, r: CopyResult)
    ensures Prepend([w], Prepend(log, r)) == Prepend([w] + log, r)
    ensures TotalBytes([w] + log) == |w.payload| + TotalBytes(log)
  {
    assert [w] + (log + r.log) == ([w] + log) + r.log;
    TotalBytesOne(w, log);
  }

  /**
   With working destinations every run, however it ends, has delivered whole frames
   only, in stream order; and one that is not cancelled has delivered all of them.
   */
  lemma {:induction false} WorkingRunDeliversWholeFrames(p: Parsed, ending: Ending, answers: seq<WriteAnswer>,
                                                         polls: seq<bool>, written: nat)
    requires Working(answers)
    ensures Deliver(p, ending, answers, polls, written).log <= p.writes
    ensures true !in polls ==>
              Deliver(p, ending, answers, polls, written)
              == Prepend(p.writes, Finish(p.stop, ending, written + TotalBytes(p.writes)))
    decreases |p.writes|
  {
    if p.writes == [] {
      FinishWritesNothing(p.stop, ending, written);
    } else {
      hide Deliver, Finish, TotalBytes, Working;
      var w, rest := p.writes[0], p.(writes := p.writes[1..]);
      var more := written + |w.payload|;
      DeliverWorking(p, ending, answers, polls, written);
      WorkingRunDeliversWholeFrames(rest, ending, Rest(answers), Rest(polls), more);
      assert p.writes == [w] + rest.writes;
      PrependOne(w, rest.writes, Finish(p.stop, ending, more + TotalBytes(rest.writes)));
    }
  }

  /** Copying a multiplexed list of frames to working destinations writes every frame, and counts every byte. */
  lemma CopyMultiplexed(fs: seq<RawFrame>)
    requires forall f | f in fs :: Deliverable(f)
    ensures CopyRun(Multiplex(fs), Eof, [], []) == CopyResult(WritesOf(fs), TotalBytes(WritesOf(fs)), NoError)
  {
    hide Multiplex, WritesOf, Deliver, TotalBytes, Deliverable, Parse;
    MultiplexThenParse(fs, []);
    EmptyParse();
    assert Multiplex(fs) + [] == Multiplex(fs);
    assert WritesOf(fs) + [] == WritesOf(fs);
    WorkingRunDeliversWholeFrames(Parse(Multiplex(fs)), Eof, [], [], 0);
  }

  lemma EmptyParse()
    ensures Parse([]) == Parsed([], Exhausted)
  {
  }

  /**
   The round trip, end to end: copying a multiplexed list of frames to working
   destinations writes each side's payloads in order, and counts every byte.
   */
  lemma {:induction false} MultiplexThenCopy(fs: seq<RawFrame>)
    requires forall f | f in fs :: Deliverable(f)
    ensures CopyRun(Multiplex(fs), Eof, [], [])
         == CopyResult(WritesOf(fs), TotalBytes(WritesOf(fs)), NoError)
    ensures forall d :: Received(d, WritesOf(fs)) == PayloadsFor(d, fs)
  {
    hide *;
    CopyMultiplexed(fs);
    forall d ensures Received(d, WritesOf(fs)) == PayloadsFor(d, fs) {
      ReceivedIsPayloads(d, fs);
    }
  }

  /** The concatenated payloads a sender meant for one side: stream byte 2 is standard error. */
  function PayloadsFor(dest: Dest, fs: seq<RawFrame>): Text {
    if fs == [] then []
    else (if (fs[0].kind == 2) == dest.Err? then fs[0].payload else []) + PayloadsFor(dest, fs[1..])
  }

  lemma {:induction false} ReceivedIsPayloads(dest: Dest, fs: seq<RawFrame>)
    ensures Received(dest, WritesOf(fs)) == PayloadsFor(dest, fs)
  {
    if fs != [] {
      ReceivedIsPayloads(dest, fs[1..]);
      assert WritesOf(fs)[1..] == WritesOf(fs[1..]);
    }
  }

  // ----- What is on the wire, and how a copy ends, byte by byte.

  /** The first byte of a length counts most: lengths are ordered as their bytes are. */
  lemma SizesOrderedAsBytes(b: Text, c: Text, i: nat)
    requires |b| == |c| == 4 && i < 4 && b[..i] == c[..i] && b[i] < c[i]
    ensures DecodeSize(b) < DecodeSize(c)
  {
    assert forall k | 0 <= k < i :: b[..i][k] == c[..i][k];
    assert i > 0 ==> b[0] == c[0];
    assert i > 1 ==> b[1] == c[1];
    assert i > 2 ==> b[2] == c[2];
  }

  /** Two frames written out: five bytes for standard output, two for standard error. */
  lemma TwoFramesOnTheWire()
    ensures var hello: Text, no: Text := [104, 101, 108, 108, 111], [110, 111];
            CopyRun([1, 0, 0, 0, 0, 0, 0, 5] + hello + ([2, 0, 0, 0, 0, 0, 0, 2] + no), Eof, [], [])
            == CopyResult([Write(Out, hello), Write(Err, no)], 7, NoError)
  {
    var hello: Text, no: Text := [104, 101, 108, 108, 111], [110, 111];
    var f, g := RawFrame(1, [0, 0, 0], hello), RawFrame(2, [0, 0, 0], no);
    assert Encode(f) == [1, 0, 0, 0, 0, 0, 0, 5] + hello;
    assert Encode(g) == [2, 0, 0, 0, 0, 0, 0, 2] + no;
    assert Multiplex([g]) == Encode(g) by { assert [g][1..] == []; }
    assert Multiplex([f, g]) == Encode(f) + Encode(g) by { assert [f, g][1..] == [g]; }
    assert WritesOf([g]) == [Write(Err, no)] by { assert [g][1..] == []; }
    assert WritesOf([f, g]) == [Write(Out, hello), Write(Err, no)] by { assert [f, g][1..] == [g]; }
    CopyMultiplexed([f, g]);
    assert [Write(Err, no)] + [] == [Write(Err, no)];
    assert [Write(Out, hello)] + [Write(Err, no)] == [Write(Out, hello), Write(Err, no)];
    TotalBytesOne(Write(Err, no), []);
    TotalBytesOne(Write(Out, hello), [Write(Err, no)]);
  }

  /** What follows whole frames decides how the copy ends. */
  lemma CopyThenTail(fs: seq<RawFrame>, tail: Text, ending: Ending)
    requires (forall f | f in fs :: Deliverable(f)) && Parse(tail).writes == []
    ensures CopyRun(Multiplex(fs) + tail, ending, [], [])
         == Prepend(WritesOf(fs), Finish(Parse(tail).stop, ending, TotalBytes(WritesOf(fs))))
  {
    hide Multiplex, WritesOf, Deliver, TotalBytes, Deliverable, Parse, Finish;
    MultiplexThenParse(fs, tail);
    assert WritesOf(fs) + [] == WritesOf(fs);
    WorkingRunDeliversWholeFrames(Parse(Multiplex(fs) + tail), ending, [], [], 0);
  }

  /** An error the daemon puts into the stream ends the copy with that error, whatever follows it. */
  lemma DaemonErrorEndsCopy(fs: seq<RawFrame>, padding: Text, message: Text, more: Text, ending: Ending)
    requires (forall f | f in fs :: Deliverable(f)) && |padding| == 3 && |message| < TWO_TO_THE_32
    ensures CopyRun(Multiplex(fs) + ([3] + padding + EncodeSize(|message|) + message + more), ending, [], [])
         == CopyResult(WritesOf(fs), TotalBytes(WritesOf(fs)), DaemonError(message))
  {
    var tail := [3] + padding + EncodeSize(|message|) + message + more;
    assert tail[SIZE_INDEX..SIZE_INDEX + 4] == EncodeSize(|message|);
    DecodeEncodeSize(|message|);
    assert tail[PREFIX_LEN..|message| + PREFIX_LEN] == message;
    assert Parse(tail) == Parsed([], StoppedSystem(message));
    CopyThenTail(fs, tail, ending);
    assert WritesOf(fs) + [] == WritesOf(fs);
  }

  /** A header of an unknown kind ends the copy as soon as it is complete, and the count is lost. */
  lemma BadHeaderEndsCopy(fs: seq<RawFrame>, header: Text, more: Text, ending: Ending)
    requires (forall f | f in fs :: Deliverable(f)) && |header| == 8 && header[0] > 3
    ensures CopyRun(Multiplex(fs) + (header + more), ending, [], [])
         == CopyResult(WritesOf(fs), 0, UnrecognizedHeader(header[0]))
  {
    assert Parse(header + more) == Parsed([], StoppedBad(header[0]));
    CopyThenTail(fs, header + more, ending);
    assert WritesOf(fs) + [] == WritesOf(fs);
  }

  /** A last frame that is cut off is dropped: no error at the end of the stream, else the reader's. */
  lemma CutFrameIsDropped(fs: seq<RawFrame>, f: RawFrame, cut: nat, ending: Ending)
    requires (forall g | g in fs :: Deliverable(g)) && Deliverable(f) && cut < |f.payload| + 8
    ensures cut <= |Encode(f)|
    ensures CopyRun(Multiplex(fs) + Encode(f)[..cut], ending, [], [])
         == if ending.Eof? then CopyResult(WritesOf(fs), TotalBytes(WritesOf(fs)), NoError)
            else CopyResult(WritesOf(fs), 0, ReadFailure(ending.code))
  {
    var s := Encode(f);
    var size := EncodeSize(|f.payload|);
    assert |s| == |f.payload| + PREFIX_LEN;
    var tail := s[..cut];
    assert s[SIZE_INDEX..SIZE_INDEX + 4] == size;
    assert cut >= PREFIX_LEN ==> tail[SIZE_INDEX..SIZE_INDEX + 4] == size;
    DecodeEncodeSize(|f.payload|);
    assert Parse(tail) == Parsed([], Exhausted);
    CopyThenTail(fs, tail, ending);
    assert WritesOf(fs) + [] == WritesOf(fs);
  }

  /** The first write that is not taken in full is the last: all before it are delivered, and the count is lost. */
  lemma {:induction false} BadWriteEndsCopy(p: Parsed, ending: Ending, answers: seq<WriteAnswer>, polls: seq<bool>,
                                            written: nat, k: nat)
    requires k < |p.writes| && k < |answers| && Working(answers[..k]) && true !in polls
    requires answers[k].Failed? || (answers[k].Partial? && answers[k].count != |p.writes[k].payload|)
    ensures var w, a := p.writes[k], answers[k];
            Deliver(p, ending, answers, polls, written)
            == CopyResult(p.writes[..k] + [Write(w.dest, w.payload[..Min(a.count, |w.payload|)])], 0,
                          if a.Failed? then WriteFailure(a.code) else ShortWrite)
    decreases k
  {
    if k > 0 {
      var rest := p.(writes := p.writes[1..]);
      var w := p.writes[0];
      assert answers[..k][0].Full? && answers[1..][..k - 1] == answers[..k][1..];
      assert w.payload[..|w.payload|] == w.payload;
      BadWriteEndsCopy(rest, ending, answers[1..], Rest(polls), written + |w.payload|, k - 1);
      assert p.writes[..k] == [w] + rest.writes[..k - 1];
    }
  }

  /** A run cancelled after frame `k` has delivered exactly the frames up to that one, without an error. */
  lemma {:induction false} CancelledAfterFrame(p: Parsed, ending: Ending, answers: seq<WriteAnswer>, polls: seq<bool>,
                                               written: nat, k: nat)
    requires k < |p.writes| && k < |polls| && true !in polls[..k] && polls[k] && Working(answers)
    ensures Deliver(p, ending, answers, polls, written)
         == CopyResult(p.writes[..k + 1], written + TotalBytes(p.writes[..k + 1]), NoError)
    decreases k
  {
    hide Deliver, Working, TotalBytes;
    var w, rest := p.writes[0], p.(writes := p.writes[1..]);
    DeliverWorking(p, ending, answers, polls, written);
    assert p.writes[..k + 1] == [w] + rest.writes[..k];
    TotalBytesOne(w, rest.writes[..k]);
    if k > 0 {
      assert !polls[..k][0] && polls[1..][..k - 1] == polls[..k][1..];
      CancelledAfterFrame(rest, ending, Rest(answers), polls[1..], written + |w.payload|, k - 1);
    } else {
      assert rest.writes[..0] == [];
      NoBytes();
    }
  }

  lemma NoBytes()
    ensures TotalBytes([]) == 0
  {
  }

  /** The largest size the buffer is held to is that of the largest frame. */
  lemma {:induction false} LargestDeclaredIsLargestFrame(fs: seq<RawFrame>)
    requires forall f | f in fs :: Deliverable(f)
    ensures forall f | f in fs :: |f.payload| <= LargestDeclared(Multiplex(fs))
    ensures fs != [] ==> exists f | f in fs :: |f.payload| == LargestDeclared(Multiplex(fs))
  {
    if fs != [] {
      LargestDeclaredIsLargestFrame(fs[1..]);
      FrontOfEncoded(fs[0], Multiplex(fs[1..]));
      var s := Multiplex(fs);
      assert s == Encode(fs[0]) + Multiplex(fs[1..]);
      assert FrontOf(s) == Frame(WriteOf(fs[0]));
      assert FrameSize(s) == |fs[0].payload|;
      assert s[FrameSize(s) + PREFIX_LEN..] == Multiplex(fs[1..]);
      assert LargestDeclared(s) == Max(|fs[0].payload|, LargestDeclared(Multiplex(fs[1..])));
      if fs[1..] == [] {
        assert fs[0] in fs;
      } else {
        var f :| f in fs[1..] && |f.payload| == LargestDeclared(Multiplex(fs[1..]));
        assert f in fs && fs[0] in fs;
      }
    }
  }
}
