/**
 The start-up handshake: who waits for whom between attaching to a new container and the
 verdict on its start. Five parties take turns in any order:
 the copier (demultiplexer and condition writers), the holder of the hijacked connection,
 the waiter for exit events and reports, the run step of the deployment, and the outside
 world (container output, docker events, standard input, the deadline).
 */
module Handshake {
  import opened Frames
  import opened ConditionWriter
  import opened WriterPair

  /** A docker event of the container; only the first three statuses matter. */
  datatype DockerEvent =
    | Die(code: ExitCode)
    | DetachEvent
    | Destroy
    | OtherEvent

  /** The exitCode attribute of a die event, if it is there and parses. */
  datatype ExitCode = NoCode | Code(value: int)

  /** What the waiter's select can receive. */
  datatype Item =
    | Event(event: DockerEvent)
    | EventsError
    | WriterReport(result: ExitResult)

  const DEFAULT_RESULT := ExitResult(125, [])

  predicate Decisive(item: Item) {
    !(item.Event? && item.event.OtherEvent?)
  }

  /** The exit result after one item, as the waiter updates it. */
  function Processed(result: ExitResult, item: Item): ExitResult {
    match item
    case Event(Die(Code(value))) => result.(code := value)
    case Event(DetachEvent) => result.(code := 0)
    case Event(_) => result
    case EventsError => result
    case WriterReport(r) => r
  }

  /** The result that belongs to a decisive item, on its own. */
  function ResultOf(item: Item): ExitResult {
    match item
    case Event(Die(Code(value))) => ExitResult(value, [])
    case Event(DetachEvent) => ExitResult(0, [])
    case WriterReport(r) => r
    case _ => ExitResult(125, [])
  }

  /** How the run step ends. */
  datatype Outcome =
    | Started
    | WatchFailed
    | LaunchFailed
    | StreamFailed(error: CopyError)
    | AttachEnded
    | ExitFailed(result: ExitResult)

  /** The verdict on an exit result: clean, or stopped by a success keyword. */
  function Verdict(successes: set<Text>, r: ExitResult): Outcome {
    if r.code == 0 then Started
    else if r.code == EXIT_STOP_KEYWORD && r.message in successes then Started
    else ExitFailed(r)
  }

  datatype Config = Config(
    input: Text,               // the bytes of the attached stream
    ending: Ending,            // and how the stream ends
    watch: Watch,              // keywords and line limit
    successes: set<Text>,      // the keywords that mean success
    timed: bool,               // whether a timeout is set
    attachEnds: bool,          // whether attaching reported that the connection persists no longer
    events: seq<DockerEvent>   // the docker events of the container
  )

  /** The complete frames of the stream, in order. */
  function FramesOf(cfg: Config): seq<Write> {
    Parse(cfg.input).writes
  }

  datatype Copier = Reading | Sending(report: ExitResult) | Polling | Finished(error: CopyError)

  datatype Holder = Holding | Draining | Released(result: HoldResult)

  /** The value the holder leaves in the error channel. */
  datatype HoldResult = HoldOk | HoldFailed(error: CopyError) | HoldAttachEnded

  datatype Waiter = Unborn | Selecting | Leaving | Offering | Gone

  datatype Runner = Watching | Launching | Abandoning | AwaitingStream | AwaitingExit | Returned(outcome: Outcome)

  datatype State = State(
    done: nat,                 // frames the copier has taken
    pending: Pending,          // the writers' lines and counter
    copier: Copier,
    stdinClosed: bool,
    holder: Holder,
    contextDone: bool,
    events: seq<DockerEvent>,  // events still to come
    eventsDown: bool,          // the event stream has put its error
    waiter: Waiter,
    exitResult: ExitResult,
    runner: Runner,
    seen: seq<Item>,           // everything the waiter has received
    delivered: seq<ExitResult> // everything sent on the exit channel
  )

  function Initial(cfg: Config): State {
    State(0, FRESH, Reading, false, Holding, false, cfg.events, false, Unborn, DEFAULT_RESULT, Watching, [], [])
  }

  datatype Step =
    | CopyFrame(keyword: Text)   // the next frame reaches its writer; the keyword to report if several match
    | CopyEnd                    // the stream ends
    | CopyPoll                   // between frames the copier looks at the context
    | TakeReport                 // the waiter receives what a writer is sending
    | StdinCloses
    | HoldStream | HoldStdin | HoldContext
    | Deadline
    | WatchEvents(ok: bool)      // the waiter is set up
    | Launch(ok: bool)           // the container is started
    | RunStream                  // the run step receives from the error channel
    | TakeEvent | EventsBreak | EventsStop | TakeEventsError
    | Detach                     // the leaving waiter cancels the context, if it may
    | DeliverExit                // the waiter hands the exit result to the run step

  /** The scan of the next frame. */
  function NextScan(cfg: Config, s: State): Scan
    requires s.done < |FramesOf(cfg)|
  {
    ScanWrite(cfg.watch, s.pending, FramesOf(cfg)[s.done])
  }

  predicate Enabled(cfg: Config, s: State, step: Step) {
    match step
    case CopyFrame(keyword) =>
      && s.copier.Reading? && s.done < |FramesOf(cfg)|
      && (NextScan(cfg, s).Report? && NextScan(cfg, s).hits != {} ==> keyword in NextScan(cfg, s).hits)
    case CopyEnd => s.copier.Reading? && s.done == |FramesOf(cfg)|
    case CopyPoll => s.copier.Polling?
    case TakeReport => s.copier.Sending? && s.waiter.Selecting?
    case StdinCloses => !s.stdinClosed
    case HoldStream => !s.holder.Released? && s.copier.Finished?
    case HoldStdin => s.holder.Holding? && s.stdinClosed
    case HoldContext => !s.holder.Released? && s.contextDone
    case Deadline => cfg.timed && !s.contextDone
    case WatchEvents(_) => s.runner.Watching?
    case Launch(_) => s.runner.Launching?
    case RunStream => (s.runner.Abandoning? || s.runner.AwaitingStream?) && s.holder.Released?
    case TakeEvent => s.waiter.Selecting? && s.events != []
    case EventsBreak => !s.eventsDown
    case EventsStop => !s.eventsDown && s.contextDone
    case TakeEventsError => s.waiter.Selecting? && s.eventsDown
    case Detach => s.waiter.Leaving?
    case DeliverExit => s.waiter.Offering? && s.runner.AwaitingExit?
  }

  function HoldReturn(cfg: Config, error: CopyError): Holder {
    Released(if error != NoError then HoldFailed(error) else if cfg.attachEnds then HoldAttachEnded else HoldOk)
  }

  /** The waiter receives one item; a decisive one makes it leave its loop. */
  function Receive(s: State, item: Item): State {
    s.(seen := s.seen + [item],
       exitResult := Processed(s.exitResult, item),
       waiter := if Decisive(item) then Leaving else Selecting)
  }

  function ReportOf(scan: Scan, keyword: Text): ExitResult
    requires scan.Report?
  {
    if scan.hits != {} then ExitResult(EXIT_STOP_KEYWORD, keyword) else ExitResult(EXIT_MAX_WRITE_LINES, [])
  }

  function Apply(cfg: Config, s: State, step: Step): State
    requires Enabled(cfg, s, step)
  {
    match step
    case CopyFrame(keyword) =>
      var scan := NextScan(cfg, s);
      s.(done := s.done + 1,
         pending := s.pending.After(FramesOf(cfg)[s.done].dest, scan),
         copier := if scan.Report? then Sending(ReportOf(scan, keyword)) else Polling)
    case CopyEnd => s.(copier := Finished(Finish(Parse(cfg.input).stop, cfg.ending, 0).error))
    case CopyPoll => s.(copier := if s.contextDone then Finished(NoError) else Reading)
    case TakeReport => Receive(s, WriterReport(s.copier.report)).(copier := Polling)
    case StdinCloses => s.(stdinClosed := true)
    case HoldStream => s.(holder := HoldReturn(cfg, s.copier.error))
    case HoldStdin => s.(holder := Draining)
    case HoldContext => s.(holder := HoldReturn(cfg, NoError))
    case Deadline => s.(contextDone := true)
    case WatchEvents(ok) =>
      if ok then s.(waiter := Selecting, runner := Launching) else s.(runner := Returned(WatchFailed))
    case Launch(ok) =>
      if ok then s.(runner := AwaitingStream)
      // The cancel function at hand belongs to the context in use only if no deadline replaced it.
      else s.(runner := Abandoning, contextDone := s.contextDone || !cfg.timed)
    case RunStream =>
      if s.runner.Abandoning? then s.(runner := Returned(LaunchFailed))
      else
        (match s.holder.result
         case HoldOk => s.(runner := AwaitingExit)
         case HoldFailed(error) => s.(runner := Returned(StreamFailed(error)))
         case HoldAttachEnded => s.(runner := Returned(AttachEnded)))
    case TakeEvent => Receive(s, Event(s.events[0])).(events := s.events[1..])
    case EventsBreak => s.(eventsDown := true)
    case EventsStop => s.(eventsDown := true)
    case TakeEventsError => Receive(s, EventsError)
    case Detach => s.(waiter := Offering, contextDone := s.contextDone || cfg.timed)
    case DeliverExit =>
      s.(waiter := Gone,
         delivered := s.delivered + [s.exitResult],
         runner := Returned(Verdict(cfg.successes, s.exitResult)))
  }

  /** Steps only the outside world can take, whenever it likes or never. */
  predicate Outside(step: Step) {
    step.CopyFrame? || step.CopyEnd? || step.StdinCloses? || step.TakeEvent? || step.EventsBreak?
  }

  predicate CanRun(cfg: Config, s: State, steps: seq<Step>)
    decreases |steps|
  {
    steps == [] || (Enabled(cfg, s, steps[0]) && CanRun(cfg, Apply(cfg, s, steps[0]), steps[1..]))
  }

  function Execute(cfg: Config, s: State, steps: seq<Step>): State
    requires CanRun(cfg, s, steps)
    decreases |steps|
  {
    if steps == [] then s else Execute(cfg, Apply(cfg, s, steps[0]), steps[1..])
  }

  /** Some interleaving leads from the start to `s`. */
  ghost predicate Reachable(cfg: Config, s: State) {
    exists steps :: CanRun(cfg, Initial(cfg), steps) && Execute(cfg, Initial(cfg), steps) == s
  }

  lemma {:induction false} RunsAppend(cfg: Config, s: State, steps: seq<Step>, step: Step)
    requires CanRun(cfg, s, steps) && Enabled(cfg, Execute(cfg, s, steps), step)
    ensures CanRun(cfg, s, steps + [step])
    ensures Execute(cfg, s, steps + [step]) == Apply(cfg, Execute(cfg, s, steps), step)
    decreases |steps|
  {
    hide Enabled, Apply;
    if steps == [] {
      assert CanRun(cfg, Apply(cfg, s, step), []);
      assert (steps + [step])[1..] == [];
    } else {
      RunsAppend(cfg, Apply(cfg, s, steps[0]), steps[1..], step);
      assert (steps + [step])[1..] == steps[1..] + [step];
    }
  }

  lemma InitialReachable(cfg: Config)
    ensures Reachable(cfg, Initial(cfg))
  {
    assert CanRun(cfg, Initial(cfg), []);
  }

  /** One more step from a reachable state. */
  lemma Next(cfg: Config, s: State, step: Step) returns (t: State)
    requires Reachable(cfg, s) && Enabled(cfg, s, step)
    ensures t == Apply(cfg, s, step) && Reachable(cfg, t)
  {
    var steps :| CanRun(cfg, Initial(cfg), steps) && Execute(cfg, Initial(cfg), steps) == s;
    RunsAppend(cfg, Initial(cfg), steps, step);
    t := Apply(cfg, s, step);
  }

  // ----- The invariant.

  /** All items but possibly the last one are indecisive. */
  ghost predicate IndecisiveBefore(seen: seq<Item>, n: nat) {
    forall i | 0 <= i < n <= |seen| :: !Decisive(seen[i])
  }

  /** The waiter's local state against everything it has received. */
  ghost predicate WaiterInv(s: State) {
    match s.waiter
    case Unborn => s.seen == [] && s.exitResult == DEFAULT_RESULT && s.delivered == []
    case Selecting => IndecisiveBefore(s.seen, |s.seen|) && s.exitResult == DEFAULT_RESULT && s.delivered == []
    case _ =>
      && s.seen != [] && IndecisiveBefore(s.seen, |s.seen| - 1) && Decisive(s.seen[|s.seen| - 1])
      && s.exitResult == ResultOf(s.seen[|s.seen| - 1])
      && s.delivered == if s.waiter.Gone? then [s.exitResult] else []
  }

  /** Where the waiter can be while the run step is somewhere. */
  ghost predicate RunnerInv(cfg: Config, s: State) {
    match s.runner
    case Watching => s.waiter.Unborn?
    case Launching => !s.waiter.Unborn? && !s.waiter.Gone?
    case Abandoning => !s.waiter.Unborn? && !s.waiter.Gone?
    case AwaitingStream => !s.waiter.Unborn? && !s.waiter.Gone?
    case AwaitingExit => !s.waiter.Unborn? && !s.waiter.Gone? && s.holder == Released(HoldOk)
    case Returned(outcome) =>
      && (outcome == Started || outcome.ExitFailed? ==>
            s.waiter.Gone? && s.holder == Released(HoldOk) && outcome == Verdict(cfg.successes, s.exitResult))
      && (s.waiter.Gone? ==> outcome == Started || outcome.ExitFailed?)
  }

  /** A report the writers can have made first, on a prefix of the stream's frames. */
  ghost predicate FirstReport(cfg: Config, n: nat, r: ExitResult) {
    && n <= |FramesOf(cfg)|
    && WatchAll(cfg.watch, FramesOf(cfg)[..n]).Reported?
    && Reports(WatchAll(cfg.watch, FramesOf(cfg)[..n]).scan, r)
  }

  /** A report the writers can have made first on the frames taken so far. */
  ghost predicate ReportedBy(cfg: Config, done: nat, r: ExitResult) {
    exists n: nat :: n <= done && FirstReport(cfg, n, r)
  }

  /** Until the waiter takes a report, the writers are as after an unreported prefix, or are sending the first report. */
  ghost predicate CopierInv(cfg: Config, s: State) {
    && s.done <= |FramesOf(cfg)|
    && (s.waiter.Unborn? || s.waiter.Selecting? ==>
          if s.copier.Sending? then FirstReport(cfg, s.done, s.copier.report)
          else WatchAll(cfg.watch, FramesOf(cfg)[..s.done]) == Unreported(s.pending))
    && (forall i | 0 <= i < |s.seen| && s.seen[i].WriterReport? :: ReportedBy(cfg, s.done, s.seen[i].result))
  }

  ghost predicate ContextInv(cfg: Config, s: State) {
    cfg.timed && (s.waiter.Offering? || s.waiter.Gone?) ==> s.contextDone
  }

  ghost predicate Inv(cfg: Config, s: State) {
    WaiterInv(s) && RunnerInv(cfg, s) && CopierInv(cfg, s) && ContextInv(cfg, s)
  }

  lemma InitialInv(cfg: Config)
    ensures Inv(cfg, Initial(cfg))
  {
  }

  lemma CopyFrameKeepsCopierInv(cfg: Config, s: State, keyword: Text)
    requires CopierInv(cfg, s) && Enabled(cfg, s, CopyFrame(keyword))
    ensures CopierInv(cfg, Apply(cfg, s, CopyFrame(keyword)))
  {
    var ws := FramesOf(cfg)[..s.done + 1];
    assert ws[..s.done] == FramesOf(cfg)[..s.done];
  }

  lemma StepKeepsCopierInv(cfg: Config, s: State, step: Step)
    requires RunnerInv(cfg, s) && CopierInv(cfg, s) && Enabled(cfg, s, step)
    ensures CopierInv(cfg, Apply(cfg, s, step))
  {
    hide WatchAll, ScanChunk, Reports, Finish, Processed, Verdict, FramesOf, FirstReport;
    match step {
      case CopyFrame(keyword) => CopyFrameKeepsCopierInv(cfg, s, keyword);
      case TakeReport => assert FirstReport(cfg, s.done, s.copier.report);
      case _ =>
    }
  }

  /** A step in which the waiter takes part. */
  predicate OfWaiter(step: Step) {
    step.TakeReport? || step.TakeEvent? || step.TakeEventsError? || step.WatchEvents? || step.Detach? || step.DeliverExit?
  }

  lemma OtherStepLeavesWaiter(cfg: Config, s: State, step: Step)
    requires Enabled(cfg, s, step) && !OfWaiter(step)
    ensures var t := Apply(cfg, s, step);
            t.waiter == s.waiter && t.seen == s.seen && t.exitResult == s.exitResult && t.delivered == s.delivered
  {
    hide FramesOf, NextScan, Finish, Parse, Verdict, HoldReturn, ReportOf, Receive, Processed, Decisive;
  }

  lemma SameWaiterInv(s: State, t: State)
    requires WaiterInv(s)
    requires t.waiter == s.waiter && t.seen == s.seen && t.exitResult == s.exitResult && t.delivered == s.delivered
    ensures WaiterInv(t)
  {
  }

  lemma ReceiveKeepsWaiterInv(s: State, item: Item)
    requires WaiterInv(s) && s.waiter.Selecting?
    ensures WaiterInv(Receive(s, item))
  {
  }

  lemma StepKeepsWaiterInv(cfg: Config, s: State, step: Step)
    requires RunnerInv(cfg, s) && WaiterInv(s) && Enabled(cfg, s, step)
    ensures WaiterInv(Apply(cfg, s, step))
  {
    hide FramesOf, NextScan, Verdict, HoldReturn, ReportOf, IndecisiveBefore, ResultOf, Decisive, Receive;
    match step {
      case TakeReport => ReceiveKeepsWaiterInv(s, WriterReport(s.copier.report));
      case TakeEvent => ReceiveKeepsWaiterInv(s, Event(s.events[0]));
      case TakeEventsError => ReceiveKeepsWaiterInv(s, EventsError);
      case WatchEvents(_) => NothingReceived(s);
      case Detach =>
      case DeliverExit =>
      case _ =>
        OtherStepLeavesWaiter(cfg, s, step);
        SameWaiterInv(s, Apply(cfg, s, step));
    }
  }

  lemma NothingReceived(s: State)
    ensures s.seen == [] ==> IndecisiveBefore(s.seen, |s.seen|)
  {
  }

  lemma StepKeepsRunnerInv(cfg: Config, s: State, step: Step)
    requires RunnerInv(cfg, s) && Enabled(cfg, s, step)
    ensures RunnerInv(cfg, Apply(cfg, s, step))
  {
    hide WatchAll, ScanChunk, Finish, Parse, Processed;
  }

  lemma StepKeepsContextInv(cfg: Config, s: State, step: Step)
    requires RunnerInv(cfg, s) && ContextInv(cfg, s) && Enabled(cfg, s, step)
    ensures ContextInv(cfg, Apply(cfg, s, step))
  {
    hide WatchAll, ScanChunk, Finish, Parse, Processed;
  }

  /** Every step of every party keeps the invariant. */
  lemma StepKeepsInv(cfg: Config, s: State, step: Step)
    requires Inv(cfg, s) && Enabled(cfg, s, step)
    ensures Inv(cfg, Apply(cfg, s, step))
  {
    StepKeepsCopierInv(cfg, s, step);
    StepKeepsWaiterInv(cfg, s, step);
    StepKeepsRunnerInv(cfg, s, step);
    StepKeepsContextInv(cfg, s, step);
    hide CopierInv, WaiterInv, RunnerInv, ContextInv, Enabled, Apply;
  }

  lemma {:induction false} RunKeepsInv(cfg: Config, s: State, steps: seq<Step>)
    requires Inv(cfg, s) && CanRun(cfg, s, steps)
    ensures Inv(cfg, Execute(cfg, s, steps))
    decreases |steps|
  {
    hide Inv, Enabled, Apply;
    if steps != [] {
      StepKeepsInv(cfg, s, steps[0]);
      RunKeepsInv(cfg, Apply(cfg, s, steps[0]), steps[1..]);
    }
  }

  /** The invariant holds in every state any interleaving can reach. */
  lemma ReachableInv(cfg: Config, s: State)
    requires Reachable(cfg, s)
    ensures Inv(cfg, s)
  {
    var steps :| CanRun(cfg, Initial(cfg), steps) && Execute(cfg, Initial(cfg), steps) == s;
    InitialInv(cfg);
    RunKeepsInv(cfg, Initial(cfg), steps);
  }

  // ----- Causality.

  /** The output demultiplexed so far has the word in a complete line of one of the two streams. */
  ghost predicate Shown(cfg: Config, done: nat, word: Text) {
    && done <= |FramesOf(cfg)|
    && exists dest, line :: Contains(line, word) && HasLine(Received(dest, FramesOf(cfg)[..done]), line)
  }

  /** A clean exit, a detach, or a success keyword in a complete line of the output so far. */
  ghost predicate CleanCause(cfg: Config, done: nat, item: Item) {
    match item
    case Event(Die(Code(code))) => code == 0
    case Event(DetachEvent) => true
    case WriterReport(r) => r.code == EXIT_STOP_KEYWORD && r.message in cfg.successes && Shown(cfg, done, r.message)
    case _ => false
  }

  /** The corner: a die event with the keyword code, taken for the empty success keyword. */
  predicate EmptyKeywordCause(successes: set<Text>, item: Item) {
    item == Event(Die(Code(EXIT_STOP_KEYWORD))) && [] in successes
  }

  /** The grounds on which a container counts as started. */
  ghost predicate GoodCause(cfg: Config, done: nat, item: Item) {
    CleanCause(cfg, done, item) || EmptyKeywordCause(cfg.successes, item)
  }

  lemma FirstReportShown(cfg: Config, n: nat, done: nat, r: ExitResult)
    requires FirstReport(cfg, n, r) && n <= done <= |FramesOf(cfg)|
    ensures r.code == EXIT_STOP_KEYWORD || r.code == EXIT_MAX_WRITE_LINES
    ensures r.code == EXIT_STOP_KEYWORD ==> r.message in cfg.watch.keywords && Shown(cfg, done, r.message)
    ensures r.code == EXIT_MAX_WRITE_LINES ==>
              r.message == [] && Limited(cfg.watch) && TotalNewlines(FramesOf(cfg)[..n]) > cfg.watch.maxLines
  {
    var ws, all := FramesOf(cfg)[..n], FramesOf(cfg)[..done];
    FirstReportJustified(cfg.watch, ws);
    var watched := WatchAll(cfg.watch, ws);
    assert all[..n] == ws;
    JustifiedLine(cfg.watch, ws, watched.index, watched.scan, all);
    if watched.scan.hits == {} {
      LimitPassed(cfg.watch, ws, watched.index, watched.scan);
    }
  }

  /** A limit report means that both streams together have more newlines than the limit. */
  lemma LimitPassed(watch: Watch, ws: seq<Write>, index: nat, scan: Scan)
    requires Justified(watch, ws, index, scan) && scan.hits == {}
    ensures TotalNewlines(ws) > watch.maxLines
  {
    var w := ws[index];
    var before, later := ws[..index], ws[index + 1..];
    assert ws == before + ([w] + later);
    forall d
      ensures Newlines(Received(d, ws))
           == Newlines(Received(d, before)) + (if w.dest == d then Newlines(w.payload) else 0) + Newlines(Received(d, later))
    {
      ReceivedAppend(d, before, [w] + later);
      ReceivedAppend(d, [w], later);
      ReceivedOne(d, w);
      NewlinesAppend(Received(d, before), Received(d, [w] + later));
      NewlinesAppend(Received(d, [w]), Received(d, later));
    }
    assert w.payload == w.payload[..scan.at + 1] + w.payload[scan.at + 1..];
    NewlinesAppend(w.payload[..scan.at + 1], w.payload[scan.at + 1..]);
  }

  /**
   Causality, over every interleaving: a run step that returns without an error has been
   handed the result of the one decisive item the waiter received, and that item is a
   die with exit code 0, a detach, or a report of a success keyword that stands in a
   complete line of the output demultiplexed until then; save for the one corner of an empty success
   keyword, which also accepts a container that dies with the keyword code itself.
   */
  lemma StartedHasGoodCause(cfg: Config, s: State)
    requires Reachable(cfg, s) && s.runner == Returned(Started)
    ensures s.seen != [] && IndecisiveBefore(s.seen, |s.seen| - 1)
    ensures GoodCause(cfg, s.done, s.seen[|s.seen| - 1])
    ensures s.delivered == [ResultOf(s.seen[|s.seen| - 1])]
  {
    ReachableInv(cfg, s);
    var item := s.seen[|s.seen| - 1];
    if item.WriterReport? {
      var n: nat :| n <= s.done && FirstReport(cfg, n, item.result);
      FirstReportShown(cfg, n, s.done, item.result);
    }
  }

  /**
   And conversely: once the exit result is delivered, the run step has returned without an
   error if and only if the decisive item is a good cause; every other cause is an error.
   */
  lemma StartedIffGoodCause(cfg: Config, s: State)
    requires Reachable(cfg, s)
    ensures s.runner == Returned(Started) <==>
            s.delivered != [] && s.seen != [] && GoodCause(cfg, s.done, s.seen[|s.seen| - 1])
    ensures s.delivered != [] ==> s.seen != [] && s.runner.Returned? && (s.runner.outcome.Started? || s.runner.outcome.ExitFailed?)
  {
    ReachableInv(cfg, s);
    if s.runner == Returned(Started) {
      StartedHasGoodCause(cfg, s);
    }
  }

  /** A run step that fails for the container's exit names the exit code of its death, the report, or code 125 for lack of either. */
  lemma FailureTellsCause(cfg: Config, s: State)
    requires Reachable(cfg, s) && s.runner.Returned? && s.runner.outcome.ExitFailed?
    ensures s.seen != []
    ensures var told := s.runner.outcome.result;
            match s.seen[|s.seen| - 1]
            case Event(Die(Code(value))) => value != 0 && told == ExitResult(value, [])
            case Event(Die(NoCode)) => told == ExitResult(125, [])
            case Event(Destroy) => told == ExitResult(125, [])
            case EventsError => told == ExitResult(125, [])
            case WriterReport(r) => told == r && ReportedBy(cfg, s.done, r)
            case Event(_) => false
  {
    ReachableInv(cfg, s);
  }

  /**
   The exit result is delivered at most once, and only a decisive item produces it: when
   the waiter is through, the result is that of the first decisive item it received,
   whatever indecisive events came before.
   */
  lemma ExitResultIsFirstDecision(cfg: Config, s: State)
    requires Reachable(cfg, s)
    ensures |s.delivered| <= 1
    ensures s.waiter.Unborn? || s.waiter.Selecting? <==> (forall item | item in s.seen :: !Decisive(item))
    ensures !s.waiter.Unborn? && !s.waiter.Selecting? ==>
              exists i :: 0 <= i < |s.seen| && Decisive(s.seen[i]) && IndecisiveBefore(s.seen, i)
                          && s.exitResult == ResultOf(s.seen[i])
    ensures s.delivered != [] ==> s.delivered == [s.exitResult]
  {
    ReachableInv(cfg, s);
  }

  // ----- The stream's part in the outcome.

  /** The error a copy of the whole stream ends with. */
  function StreamError(cfg: Config): CopyError {
    Finish(Parse(cfg.input).stop, cfg.ending, 0).error
  }

  /** What the copier ends with, and what the holder and the run step make of it. */
  ghost predicate StreamInv(cfg: Config, s: State) {
    && (s.copier.Finished? && s.copier.error != NoError ==> s.copier.error == StreamError(cfg) && s.done == |FramesOf(cfg)|)
    && (s.holder.Released? ==>
          match s.holder.result
          case HoldOk => !cfg.attachEnds
          case HoldFailed(error) => error == StreamError(cfg) != NoError && s.done == |FramesOf(cfg)|
          case HoldAttachEnded => cfg.attachEnds)
    && (s.runner.Returned? ==>
          match s.runner.outcome
          case StreamFailed(error) => s.holder == Released(HoldFailed(error))
          case AttachEnded => s.holder == Released(HoldAttachEnded)
          case _ => true)
  }

  lemma StepKeepsStreamInv(cfg: Config, s: State, step: Step)
    requires s.done <= |FramesOf(cfg)| && StreamInv(cfg, s) && Enabled(cfg, s, step)
    ensures StreamInv(cfg, Apply(cfg, s, step))
  {
    hide FramesOf, NextScan, Finish, Parse, ReportOf, Processed, Decisive;
  }

  lemma {:induction false} RunKeepsStreamInv(cfg: Config, s: State, steps: seq<Step>)
    requires Inv(cfg, s) && StreamInv(cfg, s) && CanRun(cfg, s, steps)
    ensures StreamInv(cfg, Execute(cfg, s, steps))
    decreases |steps|
  {
    hide StreamInv, Enabled, Apply, RunnerInv, WaiterInv, ContextInv, FramesOf;
    if steps != [] {
      StepKeepsInv(cfg, s, steps[0]);
      StepKeepsStreamInv(cfg, s, steps[0]);
      RunKeepsStreamInv(cfg, Apply(cfg, s, steps[0]), steps[1..]);
    }
  }

  /**
   A run step that blames the stream has been given the error a copy of the whole stream
   ends with; one that blames the attaching was attached to a connection that persists no
   longer, on which no container counts as started.
   */
  lemma StreamOutcomes(cfg: Config, s: State)
    requires Reachable(cfg, s) && s.runner.Returned?
    ensures s.runner.outcome.StreamFailed? ==>
              s.runner.outcome.error != NoError && s.runner.outcome.error == CopyRun(cfg.input, cfg.ending, [], []).error
              && s.done == |FramesOf(cfg)|
    ensures s.runner.outcome.AttachEnded? ==> cfg.attachEnds
    ensures s.runner.outcome.Started? || s.runner.outcome.ExitFailed? ==> !cfg.attachEnds
  {
    hide FramesOf, Finish, Parse, Deliver, WaiterInv, ContextInv, Enabled, Apply;
    var steps :| CanRun(cfg, Initial(cfg), steps) && Execute(cfg, Initial(cfg), steps) == s;
    InitialInv(cfg);
    RunKeepsStreamInv(cfg, Initial(cfg), steps);
    ReachableInv(cfg, s);
    WorkingRunDeliversWholeFrames(Parse(cfg.input), cfg.ending, [], [], 0);
    FinishErrorIsCountless(Parse(cfg.input).stop, cfg.ending, 0, TotalBytes(FramesOf(cfg)));
    WritesAreFrames(cfg);
  }

  lemma WritesAreFrames(cfg: Config)
    ensures FramesOf(cfg) == Parse(cfg.input).writes
  {
  }

  lemma FinishErrorIsCountless(stop: Stop, ending: Ending, n: nat, m: nat)
    ensures Finish(stop, ending, n).error == Finish(stop, ending, m).error
  {
  }

  // ----- Progress.

  /** Some step is due that does not depend on the outside world's goodwill. */
  ghost predicate StepDue(cfg: Config, s: State) {
    exists step :: Enabled(cfg, s, step) && !Outside(step)
  }

  /** With a timeout, no reachable state before the run step returns is stuck. */
  lemma TimedNeverStuck(cfg: Config, s: State)
    requires cfg.timed && Reachable(cfg, s) && !s.runner.Returned?
    ensures StepDue(cfg, s)
  {
    ReachableInv(cfg, s);
    var step :=
      match s.runner
      case Watching => WatchEvents(true)
      case Launching => Launch(true)
      case AwaitingExit =>
        (match s.waiter
         case Leaving => Detach
         case Offering => DeliverExit
         case _ => if s.eventsDown then TakeEventsError else if s.contextDone then EventsStop else Deadline)
      case _ =>
        if s.holder.Released? then RunStream else if s.contextDone then HoldContext else Deadline;
    assert Enabled(cfg, s, step) && !Outside(step);
  }

  /**
   Once the waiter has decided, the run step needs neither the deadline nor the outside
   world any more: the waiter's detaching has ended the context, even if the copier is
   stuck sending another report.
   */
  lemma TimedVerdictIsPrompt(cfg: Config, s: State)
    requires cfg.timed && Reachable(cfg, s)
    requires s.waiter.Leaving? || s.waiter.Offering?
    requires s.runner.AwaitingStream? || s.runner.AwaitingExit? || s.runner.Abandoning?
    ensures exists step :: Enabled(cfg, s, step) && !Outside(step) && step != Deadline
  {
    ReachableInv(cfg, s);
    var step :=
      if s.waiter.Leaving? then Detach
      else if s.runner.AwaitingExit? then DeliverExit
      else if s.holder.Released? then RunStream
      else HoldContext;
    assert Enabled(cfg, s, step) && !Outside(step) && step != Deadline;
  }

  function CopierRank(c: Copier): nat {
    match c
    case Reading => 1
    case Polling => 2
    case Sending(_) => 3
    case Finished(_) => 0
  }

  function WaiterRank(w: Waiter): nat {
    match w
    case Unborn => 4
    case Selecting => 3
    case Leaving => 2
    case Offering => 1
    case Gone => 0
  }

  function RunnerRank(r: Runner): nat {
    match r
    case Watching => 4
    case Launching => 3
    case AwaitingStream => 2
    case Abandoning => 2
    case AwaitingExit => 1
    case Returned(_) => 0
  }

  function HolderRank(h: Holder): nat {
    match h
    case Holding => 2
    case Draining => 1
    case Released(_) => 0
  }

  function Flag(b: bool): nat {
    if b then 0 else 1
  }

  /** How many steps can still be taken at most. */
  function Rank(cfg: Config, s: State): int {
    3 * (|FramesOf(cfg)| - s.done) + CopierRank(s.copier) + WaiterRank(s.waiter) + RunnerRank(s.runner)
    + HolderRank(s.holder) + Flag(s.stdinClosed) + Flag(s.contextDone) + Flag(s.eventsDown) + |s.events|
  }

  /** A step of the copier, or of the waiter on what the copier sends. */
  predicate OfCopier(step: Step) {
    step.CopyFrame? || step.CopyEnd? || step.CopyPoll? || step.TakeReport?
  }

  /** A step of the run step on its own, or with the waiter. */
  predicate OfRunner(step: Step) {
    step.WatchEvents? || step.Launch? || step.RunStream? || step.DeliverExit?
  }

  lemma CopierStepDecreasesRank(cfg: Config, s: State, step: Step)
    requires Inv(cfg, s) && Enabled(cfg, s, step) && OfCopier(step)
    ensures Rank(cfg, Apply(cfg, s, step)) < Rank(cfg, s)
  {
    hide WatchAll, ScanChunk, Finish, Parse, Processed, WaiterInv, ContextInv, RunnerInv, ReportOf, Verdict;
  }

  lemma RunnerStepDecreasesRank(cfg: Config, s: State, step: Step)
    requires RunnerInv(cfg, s) && Enabled(cfg, s, step) && OfRunner(step)
    ensures Rank(cfg, Apply(cfg, s, step)) < Rank(cfg, s)
  {
    hide FramesOf, NextScan, Finish, Processed, Verdict, CopierRank, HolderRank;
    var t := Apply(cfg, s, step);
    match step {
      case WatchEvents(_) => assert s.waiter.Unborn? && s.runner.Watching?;
      case Launch(_) => assert t.waiter == s.waiter;
      case RunStream => assert t.waiter == s.waiter;
      case DeliverExit => assert t.waiter.Gone?;
    }
    assert RunnerRank(t.runner) < RunnerRank(s.runner);
  }

  lemma OtherStepDecreasesRank(cfg: Config, s: State, step: Step)
    requires Enabled(cfg, s, step) && !OfCopier(step) && !OfRunner(step)
    ensures Rank(cfg, Apply(cfg, s, step)) < Rank(cfg, s)
  {
    hide FramesOf, NextScan, Finish, Processed, Verdict, CopierRank, RunnerRank;
  }

  lemma StepDecreasesRank(cfg: Config, s: State, step: Step)
    requires Inv(cfg, s) && Enabled(cfg, s, step)
    ensures 0 <= Rank(cfg, Apply(cfg, s, step)) < Rank(cfg, s)
  {
    StepKeepsInv(cfg, s, step);
    hide Enabled, Apply, FramesOf, WaiterInv, RunnerInv, ContextInv, CopierRank, WaiterRank, RunnerRank, HolderRank, Flag;
    if OfCopier(step) {
      CopierStepDecreasesRank(cfg, s, step);
    } else if OfRunner(step) {
      RunnerStepDecreasesRank(cfg, s, step);
    } else {
      OtherStepDecreasesRank(cfg, s, step);
    }
  }

  lemma {:induction false} RunIsBounded(cfg: Config, s: State, steps: seq<Step>)
    requires Inv(cfg, s) && CanRun(cfg, s, steps)
    ensures |steps| + Rank(cfg, Execute(cfg, s, steps)) <= Rank(cfg, s)
    decreases |steps|
  {
    hide Inv, Enabled, Apply, Rank;
    if steps != [] {
      StepDecreasesRank(cfg, s, steps[0]);
      StepKeepsInv(cfg, s, steps[0]);
      RunIsBounded(cfg, Apply(cfg, s, steps[0]), steps[1..]);
    }
  }

  /**
   Termination, with a timeout: no interleaving goes on for ever (its length is bounded by
   the initial rank), and one that has no due step left has brought the run step past both
   channels to its return.
   */
  lemma TimedRunsReturn(cfg: Config, steps: seq<Step>)
    requires cfg.timed && CanRun(cfg, Initial(cfg), steps)
    ensures |steps| <= Rank(cfg, Initial(cfg))
    ensures !StepDue(cfg, Execute(cfg, Initial(cfg), steps)) ==> Execute(cfg, Initial(cfg), steps).runner.Returned?
  {
    InitialInv(cfg);
    RunIsBounded(cfg, Initial(cfg), steps);
    var s := Execute(cfg, Initial(cfg), steps);
    RunKeepsInv(cfg, Initial(cfg), steps);
    assert 0 <= Rank(cfg, s);
    if !s.runner.Returned? {
      TimedNeverStuck(cfg, s);
    }
  }

  // ----- Without a timeout.

  /**
   The knot: the run step waits for the stream, the holder for the copier or the context,
   the copier for the waiter to take a second report, and the waiter, which cannot end
   the context, for the run step.
   */
  ghost predicate Knotted(s: State) {
    && s.runner.AwaitingStream? && !s.holder.Released? && !s.contextDone
    && s.copier.Sending? && s.waiter.Offering?
  }

  /** Nothing the parties or the outside world do unties it. */
  lemma KnotIsForever(cfg: Config, s: State, step: Step)
    requires !cfg.timed && Knotted(s) && Enabled(cfg, s, step)
    ensures Knotted(Apply(cfg, s, step)) && (Outside(step) || step == HoldStdin)
  {
  }

  lemma KnotHasNoStepDue(cfg: Config, s: State)
    requires !cfg.timed && Knotted(s) && !s.stdinClosed
    ensures !StepDue(cfg, s)
  {
  }

  /** Frame by frame the copier comes to a report, which the waiter, having decided, never takes. */
  lemma {:induction false} CopyIntoKnot(cfg: Config, s: State) returns (t: State)
    requires !cfg.timed && Reachable(cfg, s) && WatchAll(cfg.watch, FramesOf(cfg)).Reported?
    requires s.runner.AwaitingStream? && !s.holder.Released? && !s.contextDone && s.waiter.Offering? && s.copier.Reading?
    requires !s.stdinClosed && s.done <= |FramesOf(cfg)|
    requires WatchAll(cfg.watch, FramesOf(cfg)[..s.done]) == Unreported(s.pending)
    ensures Reachable(cfg, t) && Knotted(t) && !t.stdinClosed
    decreases |FramesOf(cfg)| - s.done
  {
    hide WatchAll, ScanChunk, Reachable, FramesOf, Rank;
    var frames := FramesOf(cfg);
    assert frames[..|frames|] == frames;
    var scan := NextScan(cfg, s);
    var keyword: Text := [];
    if scan.Report? && scan.hits != {} {
      keyword :| keyword in scan.hits;
    }
    t := Next(cfg, s, CopyFrame(keyword));
    WatchOneMore(cfg.watch, frames, s.done);
    if scan.Quiet? {
      t := Next(cfg, t, CopyPoll);
      t := CopyIntoKnot(cfg, t);
    }
  }

  /** Without a timeout the knot can be tied on every stream whose output has a report in it. */
  lemma UntimedCanKnot(cfg: Config) returns (s: State)
    requires !cfg.timed && WatchAll(cfg.watch, FramesOf(cfg)).Reported?
    ensures Reachable(cfg, s) && Knotted(s) && !StepDue(cfg, s)
  {
    hide WatchAll, ScanChunk, NextScan, Reachable, StepDue, FramesOf;
    InitialReachable(cfg);
    s := Initial(cfg);
    s := Next(cfg, s, WatchEvents(true));
    s := Next(cfg, s, Launch(true));
    s := Next(cfg, s, EventsBreak);
    s := Next(cfg, s, TakeEventsError);
    s := Next(cfg, s, Detach);
    NothingWatched(cfg.watch, FramesOf(cfg));
    s := CopyIntoKnot(cfg, s);
    KnotHasNoStepDue(cfg, s);
  }

  // ----- When a start-up can always come to its end.

  /** Some continuation, the outside world included, takes the run step to its return. */
  ghost predicate CanReturn(cfg: Config, s: State) {
    exists steps :: CanRun(cfg, s, steps) && Execute(cfg, s, steps).runner.Returned?
  }

  lemma CanReturnBefore(cfg: Config, s: State, step: Step)
    requires Enabled(cfg, s, step) && CanReturn(cfg, Apply(cfg, s, step))
    ensures CanReturn(cfg, s)
  {
    hide Enabled, Apply;
    var steps :| CanRun(cfg, Apply(cfg, s, step), steps) && Execute(cfg, Apply(cfg, s, step), steps).runner.Returned?;
    assert ([step] + steps)[1..] == steps;
    assert CanRun(cfg, s, [step] + steps);
  }

  /** A knot stays one on every continuation. */
  lemma {:induction false} KnottedCannotReturn(cfg: Config, s: State, steps: seq<Step>)
    requires !cfg.timed && Knotted(s) && CanRun(cfg, s, steps)
    ensures !Execute(cfg, s, steps).runner.Returned?
    decreases |steps|
  {
    hide Enabled, Apply;
    if steps != [] {
      KnotIsForever(cfg, s, steps[0]);
      KnottedCannotReturn(cfg, Apply(cfg, s, steps[0]), steps[1..]);
    }
  }

  /** On a stream without a report the writers never send. */
  ghost predicate QuietInv(cfg: Config, s: State) {
    && s.done <= |FramesOf(cfg)| && !s.copier.Sending?
    && WatchAll(cfg.watch, FramesOf(cfg)[..s.done]) == Unreported(s.pending)
  }

  lemma StepKeepsQuiet(cfg: Config, s: State, step: Step)
    requires WatchAll(cfg.watch, FramesOf(cfg)).Unreported? && QuietInv(cfg, s) && Enabled(cfg, s, step)
    ensures QuietInv(cfg, Apply(cfg, s, step))
    ensures s.done < |FramesOf(cfg)| ==> NextScan(cfg, s).Quiet?
  {
    hide WatchAll, ScanChunk, FramesOf, Finish, Processed, Verdict;
    NextScanQuiet(cfg, s);
  }

  lemma NextScanQuiet(cfg: Config, s: State)
    requires WatchAll(cfg.watch, FramesOf(cfg)).Unreported? && QuietInv(cfg, s)
    ensures s.done < |FramesOf(cfg)| ==>
              && NextScan(cfg, s).Quiet?
              && WatchAll(cfg.watch, FramesOf(cfg)[..s.done + 1])
                 == Unreported(s.pending.After(FramesOf(cfg)[s.done].dest, NextScan(cfg, s)))
  {
    hide WatchAll, ScanChunk, FramesOf;
    var frames := FramesOf(cfg);
    if s.done < |frames| {
      WatchOneMore(cfg.watch, frames, s.done);
      var ws, more := frames[..s.done + 1], frames[s.done + 1..];
      assert ws + more == frames;
      if WatchAll(cfg.watch, ws).Reported? {
        FirstReportStays(cfg.watch, ws, more);
      }
    }
  }

  lemma {:induction false} RunKeepsQuiet(cfg: Config, s: State, steps: seq<Step>)
    requires WatchAll(cfg.watch, FramesOf(cfg)).Unreported? && QuietInv(cfg, s) && CanRun(cfg, s, steps)
    ensures QuietInv(cfg, Execute(cfg, s, steps))
    decreases |steps|
  {
    hide QuietInv, Enabled, Apply, WatchAll, FramesOf;
    if steps != [] {
      StepKeepsQuiet(cfg, s, steps[0]);
      RunKeepsQuiet(cfg, Apply(cfg, s, steps[0]), steps[1..]);
    }
  }

  lemma ReachableQuiet(cfg: Config, s: State)
    requires WatchAll(cfg.watch, FramesOf(cfg)).Unreported? && Reachable(cfg, s)
    ensures QuietInv(cfg, s)
  {
    hide WatchAll, FramesOf;
    var steps :| CanRun(cfg, Initial(cfg), steps) && Execute(cfg, Initial(cfg), steps) == s;
    NothingWatched(cfg.watch, FramesOf(cfg));
    RunKeepsQuiet(cfg, Initial(cfg), steps);
  }

  /** What may happen next on a quiet stream, on the way to the return. */
  lemma QuietNextStep(cfg: Config, s: State) returns (step: Step)
    requires WatchAll(cfg.watch, FramesOf(cfg)).Unreported? && Reachable(cfg, s) && !s.runner.Returned?
    ensures Enabled(cfg, s, step)
  {
    ReachableInv(cfg, s);
    ReachableQuiet(cfg, s);
    NextScanQuiet(cfg, s);
    hide WatchAll, ScanChunk, FramesOf, NextScan, Reachable, Finish, WaiterInv, CopierInv, ContextInv;
    step :=
      match s.runner
      case Watching => WatchEvents(true)
      case Launching => Launch(true)
      case AwaitingExit =>
        (match s.waiter
         case Leaving => Detach
         case Offering => DeliverExit
         case _ => if s.eventsDown then TakeEventsError else EventsBreak)
      case _ =>
        if s.holder.Released? then RunStream
        else (match s.copier
              case Reading => if s.done < |FramesOf(cfg)| then CopyFrame([]) else CopyEnd
              case Polling => CopyPoll
              case _ => HoldStream);
  }

  lemma {:induction false} ReachableCanReturn(cfg: Config, s: State)
    requires cfg.timed || WatchAll(cfg.watch, FramesOf(cfg)).Unreported?
    requires Reachable(cfg, s)
    ensures CanReturn(cfg, s)
    decreases Rank(cfg, s)
  {
    hide WatchAll, FramesOf, Reachable, Enabled, Apply, Rank, Inv;
    if s.runner.Returned? {
      assert CanRun(cfg, s, []);
    } else {
      ReachableInv(cfg, s);
      var step;
      if cfg.timed {
        TimedNeverStuck(cfg, s);
        step :| Enabled(cfg, s, step);
      } else {
        step := QuietNextStep(cfg, s);
      }
      StepDecreasesRank(cfg, s, step);
      var t := Next(cfg, s, step);
      ReachableCanReturn(cfg, t);
      CanReturnBefore(cfg, s, step);
    }
  }

  /**
   Freedom from deadlock, configuration by configuration: from every state any interleaving
   reaches the run step can still return if and only if a timeout is set or the stream has
   no report in it at all.
   */
  lemma AlwaysCanReturnIff(cfg: Config)
    ensures (forall s | Reachable(cfg, s) :: CanReturn(cfg, s))
            <==> cfg.timed || WatchAll(cfg.watch, FramesOf(cfg)).Unreported?
  {
    hide WatchAll, FramesOf, Reachable, CanRun, Execute;
    if cfg.timed || WatchAll(cfg.watch, FramesOf(cfg)).Unreported? {
      forall s | Reachable(cfg, s) ensures CanReturn(cfg, s) {
        ReachableCanReturn(cfg, s);
      }
    } else {
      var s := UntimedCanKnot(cfg);
      forall steps | CanRun(cfg, s, steps) ensures !Execute(cfg, s, steps).runner.Returned? {
        KnottedCannotReturn(cfg, s, steps);
      }
      assert !CanReturn(cfg, s);
    }
  }

  // ----- The corner of the empty success keyword.

  ghost function CornerConfig(successes: set<Text>): Config {
    Config([], Eof, Watch(successes, 100), successes, true, false, [Die(Code(90510))])
  }

  function CornerCause(): seq<Item> {
    [Event(Die(Code(90510)))]
  }

  /** The container dies at once and the waiter leaves, detaching. */
  lemma CornerDetached(successes: set<Text>) returns (s: State)
    ensures Reachable(CornerConfig(successes), s)
    ensures s == Initial(CornerConfig(successes)).(
                   waiter := Offering, runner := AwaitingStream, contextDone := true, events := [],
                   exitResult := ExitResult(90510, []), seen := CornerCause())
  {
    hide Reachable, Parse, ScanChunk, NextScan, FramesOf, Finish, HoldReturn, Verdict;
    var cfg := CornerConfig(successes);
    InitialReachable(cfg);
    s := Initial(cfg);
    s := Next(cfg, s, WatchEvents(true));
    s := Next(cfg, s, Launch(true));
    s := Next(cfg, s, TakeEvent);
    s := Next(cfg, s, Detach);
  }

  /**
   The empty keyword is in every line, and it is also the message of a die event: a
   container that dies with exit code 90510 without any output is taken for started.
   */
  lemma EmptyKeywordCorner(successes: set<Text>) returns (s: State)
    requires [] in successes
    ensures Reachable(CornerConfig(successes), s) && s.runner == Returned(Started)
    ensures s.seen == CornerCause()
  {
    hide Reachable, Parse, ScanChunk, NextScan, FramesOf, Finish, Receive, CornerCause;
    var cfg := CornerConfig(successes);
    s := CornerDetached(successes);
    s := Next(cfg, s, HoldContext);
    s := Next(cfg, s, RunStream);
    s := Next(cfg, s, DeliverExit);
  }

  /** With these success keywords, every run that counts as started has a clean cause. */
  ghost predicate AlwaysClean(successes: set<Text>) {
    forall cfg: Config, s: State | cfg.successes == successes && Reachable(cfg, s) && s.runner == Returned(Started) ::
      s.seen != [] && CleanCause(cfg, s.done, s.seen[|s.seen| - 1])
  }

  /** Starting proves a clean cause exactly when the empty text is not a success keyword. */
  lemma AlwaysCleanIff(successes: set<Text>)
    ensures AlwaysClean(successes) <==> [] !in successes
  {
    if [] !in successes {
      forall cfg: Config, s: State | cfg.successes == successes && Reachable(cfg, s) && s.runner == Returned(Started)
        ensures s.seen != [] && CleanCause(cfg, s.done, s.seen[|s.seen| - 1])
      {
        StartedHasGoodCause(cfg, s);
      }
    } else {
      var s := EmptyKeywordCorner(successes);
      assert !CleanCause(CornerConfig(successes), s.done, CornerCause()[0]);
    }
  }
}
