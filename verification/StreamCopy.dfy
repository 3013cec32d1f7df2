/**
 The demultiplexer: an unbounded sequence of reads into one growing buffer, frames
 cut out of its front, and the leftover bytes shifted down in place.
 */
module StreamCopy {
  import opened Frames

  const STARTING_BUF_LEN: nat := 32 * 1024 + PREFIX_LEN + 1

  /**
   A source of bytes. `chunks` is how the stream happens to be cut into reads (a chunk
   may be empty: a read of no bytes and no error); `ending` is what the reader reports
   once they are used up, together with the last bytes if `eager`.
   */
  class Reader {
    var chunks: seq<Text>
    const ending: Ending
    const eager: bool

    constructor (chunks: seq<Text>, ending: Ending, eager: bool)
      ensures this.chunks == chunks && this.ending == ending && this.eager == eager
    {
      this.chunks := chunks;
      this.ending := ending;
      this.eager := eager;
    }

    function Remaining(): Text
      reads this
    {
      Concat(chunks)
    }

    function Measure(): nat
      reads this
    {
      |chunks| + |Concat(chunks)|
    }

    /** The size of what is left of the last chunk: no read that ends the stream brings more. */
    function LastChunk(): nat
      reads this
    {
      if chunks == [] then 0 else |chunks[|chunks| - 1]|
    }

    /** Reads into `buf[off..]`, which is never empty. */
    method Read(buf: array<byte>, off: nat) returns (n: nat, done: bool)
      requires off < buf.Length
      modifies this`chunks, buf
      ensures off + n <= buf.Length
      ensures buf[..off] == old(buf[..off])
      ensures old(Remaining()) == buf[off..off + n] + Remaining()
      ensures done ==> Remaining() == [] && (n == 0 || eager)
      ensures LastChunk() <= old(LastChunk())
      ensures done ==> n <= old(LastChunk())
      ensures !done ==> Measure() < old(Measure())
    {
      if chunks == [] {
        return 0, true;
      }
      var chunk := chunks[0];
      n := Min(|chunk|, buf.Length - off);
      forall i | 0 <= i < n {
        buf[off + i] := chunk[i];
      }
      assert buf[off..off + n] == chunk[..n];
      if n < |chunk| {
        chunks := [chunk[n..]] + chunks[1..];
        assert chunk[..n] + (chunk[n..] + Concat(chunks[1..])) == chunk + Concat(chunks[1..]);
        return n, false;
      }
      assert chunk[..n] == chunk;
      chunks := chunks[1..];
      done := chunks == [] && eager;
    }
  }

  /** The two destinations; `log` records, in order, what each has taken. */
  class Destinations {
    var log: seq<Write>
    var answers: seq<WriteAnswer>

    constructor (answers: seq<WriteAnswer>)
      ensures log == [] && this.answers == answers
    {
      log := [];
      this.answers := answers;
    }

    method WriteTo(dest: Dest, payload: Text) returns (answer: WriteAnswer)
      modifies this
      ensures answer == FirstAnswer(old(answers)) && answers == Rest(old(answers))
      ensures log == old(log) + [Write(dest, payload[..Taken(answer, |payload|)])]
    {
      answer := FirstAnswer(answers);
      answers := Rest(answers);
      log := log + [Write(dest, payload[..Taken(answer, |payload|)])];
    }
  }

  /** Cancellation as the loop sees it: the results of successive polls. */
  class Context {
    var polls: seq<bool>

    constructor (polls: seq<bool>)
      ensures this.polls == polls
    {
      this.polls := polls;
    }

    method Done() returns (cancelled: bool)
      modifies this
      ensures cancelled == (old(polls) != [] && old(polls)[0])
      ensures polls == Rest(old(polls))
    {
      cancelled := polls != [] && polls[0];
      polls := Rest(polls);
    }
  }

  /**
   What the outer loop keeps: however much of the input is looked at (`k` bytes, at
   least the consumed ones), the whole run over it is the part delivered so far
   followed by the run over the rest.
   */
  ghost predicate Tracks(input: Text, consumed: nat, ending: Ending,
                         answers0: seq<WriteAnswer>, polls0: seq<bool>,
                         log: seq<Write>, answers: seq<WriteAnswer>, polls: seq<bool>, written: nat)
  {
    forall k | consumed <= k <= |input| ::
      Deliver(Parse(input[..k]), ending, answers0, polls0, 0)
      == Prepend(log, Deliver(Parse(input[consumed..k]), ending, answers, polls, written))
  }

  /** A successful, uncancelled write takes the first frame off the run. */
  lemma DeliverFirst(p: Parsed, ending: Ending, answers: seq<WriteAnswer>, polls: seq<bool>, written: nat, w: Write)
    requires p.writes != [] && p.writes[0] == w
    requires AnswerError(FirstAnswer(answers), |w.payload|) == NoError
    requires polls == [] || !polls[0]
    ensures Deliver(p, ending, answers, polls, written)
         == Prepend([EntryOf(w, answers)],
                    Deliver(p.(writes := p.writes[1..]), ending, Rest(answers), Rest(polls), written + |w.payload|))
  {
  }

  /** What the destination's log gains from writing `w`. */
  function EntryOf(w: Write, answers: seq<WriteAnswer>): Write {
    Write(w.dest, w.payload[..Taken(FirstAnswer(answers), |w.payload|)])
  }

  lemma PrependTwice(log: seq<Write>, entry: Write, r: CopyResult)
    ensures Prepend(log, Prepend([entry], r)) == Prepend(log + [entry], r)
  {
  }

  /** A delivered frame moves the tracked position past it. */
  lemma TracksNextFrame(input: Text, consumed: nat, ending: Ending,
                        answers0: seq<WriteAnswer>, polls0: seq<bool>,
                        log: seq<Write>, answers: seq<WriteAnswer>, polls: seq<bool>, written: nat, w: Write)
    requires Tracks(input, consumed, ending, answers0, polls0, log, answers, polls, written)
    requires consumed + PREFIX_LEN + |w.payload| <= |input| && FrontOf(input[consumed..]) == Frame(w)
    requires AnswerError(FirstAnswer(answers), |w.payload|) == NoError
    requires polls == [] || !polls[0]
    ensures Tracks(input, consumed + PREFIX_LEN + |w.payload|, ending, answers0, polls0,
                   log + [EntryOf(w, answers)], Rest(answers), Rest(polls), written + |w.payload|)
  {
    hide FrontOf, Parse, Deliver, Prepend, EntryOf, AnswerError, FirstAnswer, Rest;
    var next := consumed + PREFIX_LEN + |w.payload|;
    forall k | next <= k <= |input|
      ensures Deliver(Parse(input[..k]), ending, answers0, polls0, 0)
           == Prepend(log + [EntryOf(w, answers)],
                      Deliver(Parse(input[next..k]), ending, Rest(answers), Rest(polls), written + |w.payload|))
    {
      FrameAhead(input, consumed, k, w);
      DeliverFirst(Parse(input[consumed..k]), ending, answers, polls, written, w);
      PrependTwice(log, EntryOf(w, answers),
                   Deliver(Parse(input[next..k]), ending, Rest(answers), Rest(polls), written + |w.payload|));
    }
  }

  /** The parse of any stretch that contains the whole next frame. */
  lemma FrameAhead(input: Text, consumed: nat, k: nat, w: Write)
    requires consumed + PREFIX_LEN + |w.payload| <= k <= |input|
    requires FrontOf(input[consumed..]) == Frame(w)
    ensures var p := Parse(input[consumed..k]);
            p.writes != [] && p.writes[0] == w
            && p.(writes := p.writes[1..]) == Parse(input[consumed + PREFIX_LEN + |w.payload|..k])
  {
    var s := input[consumed..];
    var t := input[consumed..k];
    var n := PREFIX_LEN + |w.payload|;
    assert t == s[..k - consumed];
    assert t[SIZE_INDEX..SIZE_INDEX + 4] == s[SIZE_INDEX..SIZE_INDEX + 4];
    assert t[PREFIX_LEN..n] == s[PREFIX_LEN..n];
    assert t[n..] == input[consumed + n..k];
  }

  /** Why parsing stops at a front that is not a complete frame. */
  function StopOf(front: Front): Stop
    requires !front.Frame?
  {
    match front
    case NeedMore => Exhausted
    case BadHeader(kind) => StoppedBad(kind)
    case SystemError(message) => StoppedSystem(message)
  }

  /** When no frame is complete at the tracked position, the run over `input[..k]` ends there. */
  lemma TracksStop(input: Text, consumed: nat, k: nat, ending: Ending,
                   answers0: seq<WriteAnswer>, polls0: seq<bool>,
                   log: seq<Write>, answers: seq<WriteAnswer>, polls: seq<bool>, written: nat)
    requires Tracks(input, consumed, ending, answers0, polls0, log, answers, polls, written)
    requires consumed <= k <= |input| && !FrontOf(input[consumed..k]).Frame?
    ensures CopyRun(input[..k], ending, answers0, polls0)
         == Finish(StopOf(FrontOf(input[consumed..k])), ending, written).(log := log)
  {
  }

  /** A write that fails, or after which the run is cancelled, is the last one. */
  lemma TracksLastWrite(input: Text, consumed: nat, ending: Ending,
                        answers0: seq<WriteAnswer>, polls0: seq<bool>,
                        log: seq<Write>, answers: seq<WriteAnswer>, polls: seq<bool>, written: nat, w: Write)
    requires Tracks(input, consumed, ending, answers0, polls0, log, answers, polls, written)
    requires consumed + PREFIX_LEN + |w.payload| <= |input| && FrontOf(input[consumed..]) == Frame(w)
    requires AnswerError(FirstAnswer(answers), |w.payload|) != NoError || (polls != [] && polls[0])
    ensures var e := AnswerError(FirstAnswer(answers), |w.payload|);
            CopyRun(input, ending, answers0, polls0)
            == CopyResult(log + [EntryOf(w, answers)], if e == NoError then written + |w.payload| else 0, e)
  {
    assert input[..|input|] == input;
    assert input[consumed..|input|] == input[consumed..];
    FrameAhead(input, consumed, |input|, w);
  }

  datatype Fill = Filled | RanOut | ReadFailed

  /**
   Both inner loops: read until `need` bytes are in the buffer. A reader at its end
   may still have completed the need; one that broke never has.
   */
  method FillTo(src: Reader, buf: array<byte>, nr0: nat, need: nat) returns (nr: nat, fill: Fill, ghost before: nat)
    requires nr0 <= buf.Length && need <= buf.Length
    modifies src`chunks, buf
    ensures nr <= buf.Length
    ensures buf[..nr] + src.Remaining() == old(buf[..nr0]) + old(src.Remaining())
    ensures src.LastChunk() <= old(src.LastChunk())
    ensures fill.Filled? ==> need <= nr
    ensures fill.RanOut? ==> src.ending.Eof? && nr < need && src.Remaining() == []
    // All bytes but those of the failing read are `before` many, and they were not enough.
    ensures fill.ReadFailed? ==>
              src.ending.Broken? && src.Remaining() == [] && before <= nr && before < need
              && (!src.eager ==> before == nr) && nr - before <= old(src.LastChunk())
  {
    nr, before := nr0, nr0;
    while nr < need
      invariant nr <= buf.Length
      invariant buf[..nr] + src.Remaining() == old(buf[..nr0]) + old(src.Remaining())
      invariant src.LastChunk() <= old(src.LastChunk())
      decreases src.Measure()
    {
      before := nr;
      ghost var held := buf[..nr];
      var n, done := src.Read(buf, nr);
      nr := nr + n;
      assert buf[..nr] == held + buf[before..nr];
      if done {
        if src.ending.Broken? {
          return nr, ReadFailed, before;
        }
        if nr < need {
          return nr, RanOut, before;
        }
        break;
      }
    }
    fill := Filled;
  }

  /** A stream cut inside its first frame needs more bytes. */
  lemma CutInsideFrame(ahead: Text, before: nat)
    requires PREFIX_LEN <= |ahead| && ahead[0] <= 3
    requires before <= |ahead| && before < FrameSize(ahead) + PREFIX_LEN
    ensures FrontOf(ahead[..before]).NeedMore?
  {
  }

  lemma FrontOfShort(s: Text)
    requires |s| < PREFIX_LEN || s[0] > 3
    ensures FrontOf(s) == if |s| < PREFIX_LEN then NeedMore else BadHeader(s[0])
  {
  }

  lemma FrameSizeIs(s: Text)
    requires PREFIX_LEN <= |s|
    ensures FrameSize(s) == DecodeSize(s[SIZE_INDEX..SIZE_INDEX + 4])
  {
  }

  lemma FrontOfComplete(s: Text)
    requires PREFIX_LEN <= |s| && s[0] <= 3 && FrameSize(s) + PREFIX_LEN <= |s|
    ensures var payload := s[PREFIX_LEN..FrameSize(s) + PREFIX_LEN];
            FrontOf(s) == if s[0] == 3 then SystemError(payload) else Frame(Write(DestOf(s[0]), payload))
  {
  }

  /** Extends the buffer, keeping its first `nr` bytes, when that many do not fit. */
  method Extend(buf0: array<byte>, nr: nat, need: nat) returns (buf: array<byte>)
    requires nr <= buf0.Length
    ensures if need <= buf0.Length then buf == buf0 else fresh(buf) && buf.Length == need + 1
    ensures nr <= buf.Length && buf[..nr] == buf0[..nr]
  {
    buf := buf0;
    if need > buf.Length {
      buf := new byte[need + 1];
      forall i | 0 <= i < buf0.Length {
        buf[i] := buf0[i];
      }
      assert buf[..nr] == buf0[..nr];
    }
  }

  /**
   The reading half of one round: a full header, the judgement of its stream byte,
   room for the payload, the payload.
   */
  method FetchFrame(src: Reader, buf0: array<byte>, nr0: nat)
    returns (buf: array<byte>, nr: nat, front: Front, ghost seen: nat)
    requires nr0 <= buf0.Length && STARTING_BUF_LEN <= buf0.Length
    modifies src`chunks, buf0
    ensures buf == buf0 || fresh(buf)
    ensures nr <= buf.Length
    ensures buf[..nr] + src.Remaining() == old(buf0[..nr0] + src.Remaining())
    ensures var ahead := old(buf0[..nr0] + src.Remaining());
            buf.Length == buf0.Length
            || (|ahead| >= PREFIX_LEN && ahead[0] <= 3
                && buf0.Length < buf.Length == FrameSize(ahead) + PREFIX_LEN + 1)
    // The front is that of all bytes, unless a read error hides its last bytes.
    ensures var ahead := old(buf0[..nr0] + src.Remaining());
            seen <= |ahead| && front == FrontOf(ahead[..seen])
    ensures seen < |old(buf0[..nr0] + src.Remaining())| ==> front.NeedMore? && src.ending.Broken? && src.eager
    ensures |old(buf0[..nr0] + src.Remaining())| - seen <= old(src.LastChunk())
    ensures src.LastChunk() <= old(src.LastChunk())
    ensures front.Frame? ==> |front.write.payload| + PREFIX_LEN <= nr
  {
    hide FrontOf, FrameSize, DecodeSize, Concat, DestOf;
    ghost var ahead := buf0[..nr0] + src.Remaining();
    assert ahead[..|ahead|] == ahead;
    buf := buf0;
    var fill: Fill;
    nr, fill, seen := FillTo(src, buf, nr0, PREFIX_LEN);
    if !fill.Filled? {
      seen := if fill.RanOut? then |ahead| else seen;
      FrontOfShort(ahead[..seen]);
      front := NeedMore;
      return;
    }
    seen := |ahead|;
    assert ahead[..PREFIX_LEN] == buf[..PREFIX_LEN];

    // The stream byte is judged before the payload is awaited.
    var kind := buf[0];
    if kind > 3 {
      FrontOfShort(ahead);
      front := BadHeader(kind);
      return;
    }

    FrameSizeIs(ahead);
    var size := DecodeSize(buf[SIZE_INDEX..SIZE_INDEX + 4]);
    assert ahead[SIZE_INDEX..SIZE_INDEX + 4] == buf[SIZE_INDEX..SIZE_INDEX + 4];

    buf := Extend(buf, nr, size + PREFIX_LEN);
    nr, fill, seen := FillTo(src, buf, nr, size + PREFIX_LEN);
    assert ahead == buf[..nr] + src.Remaining();
    if !fill.Filled? {
      seen := if fill.RanOut? then |ahead| else seen;
      CutInsideFrame(ahead, seen);
      front := NeedMore;
      return;
    }
    seen := |ahead|;
    FrontOfComplete(ahead);
    var payload := buf[PREFIX_LEN..size + PREFIX_LEN];
    assert payload == ahead[PREFIX_LEN..size + PREFIX_LEN];
    front := if kind == 3 then SystemError(payload) else Frame(Write(DestOf(kind), payload));
  }

  /** Moves `buf[n..nr]` to the front of the same buffer. */
  method ShiftDown(buf: array<byte>, n: nat, nr: nat)
    requires n <= nr <= buf.Length
    modifies buf
    ensures buf[..nr - n] == old(buf[n..nr])
  {
    forall i | 0 <= i < buf.Length - n {
      buf[i] := buf[i + n];
    }
  }

  datatype Emitted = Continue | Refused(error: CopyError) | Cancelled

  /**
   The writing half of one round: the payload goes to its destination; on success the
   leftover is moved to the front of the buffer and cancellation is polled.
   */
  method EmitFrame(ctx: Context, dst: Destinations, buf: array<byte>, nr0: nat, w: Write)
    returns (nr: nat, emitted: Emitted)
    requires PREFIX_LEN + |w.payload| <= nr0 <= buf.Length
    modifies ctx, dst, buf
    ensures dst.log == old(dst.log) + [EntryOf(w, old(dst.answers))] && dst.answers == Rest(old(dst.answers))
    ensures var e := AnswerError(FirstAnswer(old(dst.answers)), |w.payload|);
            emitted == if e != NoError then Refused(e)
                       else if old(ctx.polls) != [] && old(ctx.polls)[0] then Cancelled else Continue
    ensures emitted.Continue? ==>
              ctx.polls == Rest(old(ctx.polls)) && nr <= buf.Length
              && buf[..nr] == old(buf[PREFIX_LEN + |w.payload|..nr0])
  {
    nr := nr0;
    var answer := dst.WriteTo(w.dest, w.payload);
    var error := AnswerError(answer, |w.payload|);
    if error != NoError {
      return nr, Refused(error);
    }
    ShiftDown(buf, PREFIX_LEN + |w.payload|, nr);
    nr := nr - (PREFIX_LEN + |w.payload|);
    var cancelled := ctx.Done();
    emitted := if cancelled then Cancelled else Continue;
  }

  lemma LargestDeclaredAhead(s: Text)
    ensures |s| >= PREFIX_LEN && s[0] <= 3 ==> FrameSize(s) <= LargestDeclared(s)
    ensures FrontOf(s).Frame? ==> LargestDeclared(s[|FrontOf(s).write.payload| + PREFIX_LEN..]) <= LargestDeclared(s)
  {
    hide DecodeSize;
    if FrontOf(s).Frame? {
      assert |FrontOf(s).write.payload| == FrameSize(s);
    }
  }

  /** The buffer never outgrows the starting size and the largest declared frame. */
  ghost predicate Bounded(length: nat, input: Text) {
    length <= Max(STARTING_BUF_LEN, LargestDeclared(input) + PREFIX_LEN + 1)
  }

  /**
   Between two rounds: `ahead` (the bytes in the buffer and those still to be read) is
   the unconsumed end of the input, the run so far is tracked, the buffer is bounded.
   */
  ghost predicate BetweenRounds(input: Text, ahead: Text, ending: Ending,
                                answers0: seq<WriteAnswer>, polls0: seq<bool>,
                                log: seq<Write>, answers: seq<WriteAnswer>, polls: seq<bool>, written: nat, length: nat)
  {
    && |ahead| <= |input|
    && input[|input| - |ahead|..] == ahead
    && Tracks(input, |input| - |ahead|, ending, answers0, polls0, log, answers, polls, written)
    && LargestDeclared(ahead) <= LargestDeclared(input)
    && Bounded(length, input)
  }

  lemma FirstRound(input: Text, ending: Ending, answers: seq<WriteAnswer>, polls: seq<bool>)
    ensures BetweenRounds(input, input, ending, answers, polls, [], answers, polls, 0, STARTING_BUF_LEN)
  {
  }

  lemma NextRound(input: Text, ahead: Text, ending: Ending, answers0: seq<WriteAnswer>, polls0: seq<bool>,
                  log: seq<Write>, answers: seq<WriteAnswer>, polls: seq<bool>, written: nat, length: nat, w: Write)
    requires BetweenRounds(input, ahead, ending, answers0, polls0, log, answers, polls, written, length)
    requires FrontOf(ahead) == Frame(w) && |w.payload| + PREFIX_LEN <= |ahead|
    requires AnswerError(FirstAnswer(answers), |w.payload|) == NoError
    requires polls == [] || !polls[0]
    ensures |ahead[|w.payload| + PREFIX_LEN..]| < |ahead|
    ensures BetweenRounds(input, ahead[|w.payload| + PREFIX_LEN..], ending, answers0, polls0,
                          log + [EntryOf(w, answers)], Rest(answers), Rest(polls), written + |w.payload|, length)
  {
    hide FrontOf, Parse, Deliver, LargestDeclared, Tracks, Bounded;
    LargestDeclaredAhead(ahead);
    TracksNextFrame(input, |input| - |ahead|, ending, answers0, polls0, log, answers, polls, written, w);
  }

  /** The buffer length after one fetch. */
  lemma GrowsBounded(input: Text, ahead: Text, ending: Ending, answers0: seq<WriteAnswer>, polls0: seq<bool>,
                     log: seq<Write>, answers: seq<WriteAnswer>, polls: seq<bool>, written: nat, length: nat, grown: nat)
    requires BetweenRounds(input, ahead, ending, answers0, polls0, log, answers, polls, written, length)
    requires grown == length
             || (|ahead| >= PREFIX_LEN && ahead[0] <= 3 && grown == FrameSize(ahead) + PREFIX_LEN + 1)
    ensures Bounded(grown, input)
    ensures BetweenRounds(input, ahead, ending, answers0, polls0, log, answers, polls, written, grown)
  {
  }

  /** The run ends at a front that is not a complete frame; `seen` of the bytes ahead are looked at. */
  lemma LastRound(input: Text, ahead: Text, ending: Ending, answers0: seq<WriteAnswer>, polls0: seq<bool>,
                  log: seq<Write>, answers: seq<WriteAnswer>, polls: seq<bool>, written: nat, length: nat,
                  seen: nat) returns (cut: nat)
    requires BetweenRounds(input, ahead, ending, answers0, polls0, log, answers, polls, written, length)
    requires seen <= |ahead| && !FrontOf(ahead[..seen]).Frame?
    ensures cut <= |input| && |input| - cut == |ahead| - seen
    ensures CopyRun(input[..cut], ending, answers0, polls0)
         == match FrontOf(ahead[..seen])
            case NeedMore =>
              if ending.Eof? then CopyResult(log, written, NoError) else CopyResult(log, 0, ReadFailure(ending.code))
            case BadHeader(kind) => CopyResult(log, 0, UnrecognizedHeader(kind))
            case SystemError(message) => CopyResult(log, written, DaemonError(message))
  {
    hide Parse, Deliver, CopyRun, Tracks, Bounded, LargestDeclared, FrontOf;
    var consumed := |input| - |ahead|;
    cut := consumed + seen;
    assert input[consumed..cut] == ahead[..seen];
    TracksStop(input, consumed, cut, ending, answers0, polls0, log, answers, polls, written);
  }

  /** The run ends with a write that fails or is followed by cancellation. */
  lemma LastWrite(input: Text, ahead: Text, ending: Ending, answers0: seq<WriteAnswer>, polls0: seq<bool>,
                  log: seq<Write>, answers: seq<WriteAnswer>, polls: seq<bool>, written: nat, length: nat, w: Write)
    requires BetweenRounds(input, ahead, ending, answers0, polls0, log, answers, polls, written, length)
    requires FrontOf(ahead) == Frame(w) && |w.payload| + PREFIX_LEN <= |ahead|
    requires AnswerError(FirstAnswer(answers), |w.payload|) != NoError || (polls != [] && polls[0])
    ensures var e := AnswerError(FirstAnswer(answers), |w.payload|);
            CopyRun(input[..|input|], ending, answers0, polls0)
            == CopyResult(log + [EntryOf(w, answers)], if e == NoError then written + |w.payload| else 0, e)
  {
    hide FrontOf, Parse, Deliver, CopyRun, LargestDeclared, Tracks, Bounded;
    TracksLastWrite(input, |input| - |ahead|, ending, answers0, polls0, log, answers, polls, written, w);
    assert input[..|input|] == input;
  }

  lemma LogGrows(before: seq<Write>, log: seq<Write>, entry: Write)
    ensures before + log + [entry] == before + (log + [entry])
  {
  }

  lemma DropFromSum(a: Text, b: Text, n: nat)
    requires n <= |a|
    ensures (a + b)[n..] == a[n..] + b
  {
  }

  /** One round: a frame is fetched and, if it is complete and has a destination, emitted. */
  method CopyRound(ctx: Context, dst: Destinations, src: Reader, buf0: array<byte>, nr0: nat)
    returns (buf: array<byte>, nr: nat, front: Front, emitted: Emitted, ghost seen: nat)
    requires nr0 <= buf0.Length && STARTING_BUF_LEN <= buf0.Length
    modifies ctx, dst, src`chunks, buf0
    ensures buf == buf0 || fresh(buf)
    ensures var ahead := old(buf0[..nr0] + src.Remaining());
            && seen <= |ahead| && front == FrontOf(ahead[..seen])
            && |ahead| - seen <= old(src.LastChunk()) && src.LastChunk() <= old(src.LastChunk())
            && (seen < |ahead| ==> front.NeedMore? && src.ending.Broken? && src.eager)
            && (front.Frame? ==> |front.write.payload| + PREFIX_LEN <= |ahead|)
            && (buf.Length == buf0.Length
                || (|ahead| >= PREFIX_LEN && ahead[0] <= 3
                    && buf0.Length < buf.Length == FrameSize(ahead) + PREFIX_LEN + 1))
    ensures !front.Frame? ==> unchanged(dst) && unchanged(ctx)
    ensures front.Frame? ==>
              var e := AnswerError(FirstAnswer(old(dst.answers)), |front.write.payload|);
              && dst.log == old(dst.log) + [EntryOf(front.write, old(dst.answers))] && dst.answers == Rest(old(dst.answers))
              && emitted == (if e != NoError then Refused(e)
                             else if old(ctx.polls) != [] && old(ctx.polls)[0] then Cancelled else Continue)
    ensures front.Frame? && emitted.Continue? ==>
              && ctx.polls == Rest(old(ctx.polls)) && nr <= buf.Length
              && |front.write.payload| + PREFIX_LEN <= |old(buf0[..nr0] + src.Remaining())|
              && buf[..nr] + src.Remaining() == old(buf0[..nr0] + src.Remaining())[|front.write.payload| + PREFIX_LEN..]
  {
    hide FrontOf, FrameSize, DecodeSize, Concat, EntryOf, AnswerError, Rest, FirstAnswer;
    buf, nr, front, seen := FetchFrame(src, buf0, nr0);
    emitted := Continue;
    if front.Frame? {
      ghost var held := buf[..nr];
      nr, emitted := EmitFrame(ctx, dst, buf, nr, front.write);
      DropFromSum(held, src.Remaining(), |front.write.payload| + PREFIX_LEN);
    }
  }

  method StdCopy(ctx: Context, dst: Destinations, src: Reader)
    returns (written: nat, error: CopyError, ghost cut: nat, ghost peak: nat)
    modifies ctx, dst, src
    // The run is the pure one over the input, however that is cut into reads; only an error that
    // arrives together with the last bytes hides those bytes.
    ensures cut <= |old(src.Remaining())|
    ensures src.ending.Eof? || !src.eager ==> cut == |old(src.Remaining())|
    ensures cut < |old(src.Remaining())| ==> error == ReadFailure(src.ending.code)
    ensures |old(src.Remaining())| - cut <= old(src.LastChunk())
    ensures var r := CopyRun(old(src.Remaining())[..cut], src.ending, old(dst.answers), old(ctx.polls));
            dst.log == old(dst.log) + r.log && written == r.written && error == r.error
    ensures Bounded(peak, old(src.Remaining()))
  {
    hide *;
    ghost var input, ahead := src.Remaining(), src.Remaining();
    ghost var log: seq<Write> := [];
    ghost var answers0, polls0 := dst.answers, ctx.polls;
    var buf := new byte[STARTING_BUF_LEN];
    var nr: nat := 0;
    written := 0;
    FirstRound(input, src.ending, answers0, polls0);
    while true
      invariant fresh(buf) && STARTING_BUF_LEN <= buf.Length
      invariant nr <= buf.Length
      invariant ahead == buf[..nr] + src.Remaining()
      invariant dst.log == old(dst.log) + log
      invariant src.LastChunk() <= old(src.LastChunk())
      invariant BetweenRounds(input, ahead, src.ending, answers0, polls0, log, dst.answers, ctx.polls, written, buf.Length)
      decreases |ahead|
    {
      ghost var seen: nat;
      ghost var length := buf.Length;
      ghost var answers, polls := dst.answers, ctx.polls;
      var front, emitted;
      buf, nr, front, emitted, seen := CopyRound(ctx, dst, src, buf, nr);
      GrowsBounded(input, ahead, src.ending, answers0, polls0, log, answers, polls, written, length, buf.Length);
      peak := buf.Length;

      if !front.Frame? {
        cut := LastRound(input, ahead, src.ending, answers0, polls0, log, answers, polls, written, buf.Length, seen);
        match front {
          case NeedMore =>
            error := if src.ending.Eof? then NoError else ReadFailure(src.ending.code);
          case BadHeader(kind) =>
            error := UnrecognizedHeader(kind);
          case SystemError(message) =>
            error := DaemonError(message);
        }
        if !error.NoError? && !error.DaemonError? {
          written := 0;
        }
        return;
      }

      var w := front.write;
      assert ahead[..seen] == ahead;
      LogGrows(old(dst.log), log, EntryOf(w, answers));
      if !emitted.Continue? {
        cut := |input|;
        LastWrite(input, ahead, src.ending, answers0, polls0, log, answers, polls, written, buf.Length, w);
        written, error := if emitted.Refused? then 0 else written + |w.payload|,
                          if emitted.Refused? then emitted.error else NoError;
        return;
      }
      NextRound(input, ahead, src.ending, answers0, polls0, log, answers, polls, written, buf.Length, w);
      written := written + |w.payload|;
      log := log + [EntryOf(w, answers)];
      ahead := ahead[|w.payload| + PREFIX_LEN..];
    }
  }

  /**
   Why `cut` matters: a frame whose last byte arrives together with a read error is
   lost, while the same bytes followed by the same error in a read of its own deliver it.
   The guarantee above is therefore exact for readers that are not eager, and for those
   that end without an error.
   */
  lemma EagerErrorLosesFrame(f: RawFrame, ending: Ending)
    requires Deliverable(f) && ending.Broken?
    ensures CopyRun(Encode(f)[..|Encode(f)| - 1], ending, [], []) == CopyResult([], 0, ReadFailure(ending.code))
    ensures CopyRun(Encode(f), ending, [], []) == CopyResult([WriteOf(f)], 0, ReadFailure(ending.code))
  {
    var s := Encode(f);
    FrontOfEncoded(f, []);
    assert s + [] == s;
    var n := |f.payload| + PREFIX_LEN;
    assert |s| == n;
    assert s[SIZE_INDEX..SIZE_INDEX + 4] == EncodeSize(|f.payload|);
    DecodeEncodeSize(|f.payload|);
    CutInsideFrame(s, n - 1);
    assert s[n..] == [];
    assert f.payload[..|f.payload|] == f.payload;
    assert Parse(s) == Parsed([WriteOf(f)], Exhausted);
    WorkingRunDeliversWholeFrames(Parse(s), ending, [], [], 0);
  }

  lemma {:induction false} HiddenBytesIff(seen: Text, hidden: Text)
    ensures Parse(seen + hidden) == Parse(seen)
            <==> Parse(seen).stop != Exhausted || FrontOf(Tail(seen) + hidden).NeedMore?
    decreases |seen|
  {
    if FrontOf(seen).Frame? {
      var n := FrameSize(seen) + PREFIX_LEN;
      FrontOfExtension(seen, hidden);
      assert (seen + hidden)[n..] == seen[n..] + hidden;
      HiddenBytesIff(seen[n..], hidden);
      assert Parse(seen).writes[1..] == Parse(seen[n..]).writes;
      assert Parse(seen + hidden).writes[1..] == Parse(seen[n..] + hidden).writes;
    } else if !FrontOf(seen).NeedMore? {
      LaterBytesKeepFrames(seen, hidden);
    }
  }

  /**
   Exactly when the bytes hidden by a read error matter to a run: if a header or a frame
   that the run was waiting for is completed by them.
   */
  lemma HiddenBytesMatterIff(seen: Text, hidden: Text, ending: Ending)
    requires ending.Broken?
    ensures CopyRun(seen + hidden, ending, [], []) != CopyRun(seen, ending, [], [])
            <==> Parse(seen).stop == Exhausted && !FrontOf(Tail(seen) + hidden).NeedMore?
  {
    HiddenBytesIff(seen, hidden);
    hide Parse, FrontOf, Tail;
    WorkingRunDeliversWholeFrames(Parse(seen), ending, [], [], 0);
    WorkingRunDeliversWholeFrames(Parse(seen + hidden), ending, [], [], 0);
  }
}
