/**
 What happens between attaching to a new container and the verdict on its start: a run of
 the handshake, cut in two where the container is launched.
 */
module Startups {
  import F = Frames
  import C = ConditionWriter
  import H = Handshake

  /**
   Whether the image can be had and attaching works, and the steps of the handshake before
   and after the launch.
   */
  datatype Startup = Startup(imageReady: bool, attached: bool, cfg: H.Config, before: seq<H.Step>, after: seq<H.Step>)

  /** The steps are a run of the handshake from its start to the return of the run step. */
  predicate Plays(su: Startup) {
    && H.CanRun(su.cfg, H.Initial(su.cfg), su.before)
    && var s := H.Execute(su.cfg, H.Initial(su.cfg), su.before);
       || s.runner == H.Returned(H.WatchFailed)
       || (&& s.runner.Launching?
           && H.CanRun(su.cfg, H.Apply(su.cfg, s, H.Launch(true)), su.after)
           && H.Execute(su.cfg, H.Apply(su.cfg, s, H.Launch(true)), su.after).runner.Returned?)
  }

  /** The waiter is set up and the container can be launched. */
  predicate Launches(su: Startup)
    requires Plays(su)
  {
    su.attached && H.Execute(su.cfg, H.Initial(su.cfg), su.before).runner.Launching?
  }

  /** The state of the handshake when the run step returns, the launch having succeeded. */
  function AtVerdict(su: Startup): H.State
    requires Plays(su) && Launches(su)
  {
    H.Execute(su.cfg, H.Apply(su.cfg, H.Execute(su.cfg, H.Initial(su.cfg), su.before), H.Launch(true)), su.after)
  }

  /** The handshake ends with the verdict that the container has started. */
  predicate Proves(su: Startup)
    requires Plays(su)
  {
    Launches(su) && AtVerdict(su).runner == H.Returned(H.Started)
  }

  lemma ProvesMeansLaunches(su: Startup)
    requires Plays(su)
    ensures Proves(su) ==> Launches(su)
  {
  }

  /**
   What the verdict rests on: a reachable state of the handshake in which the decisive thing
   the waiter received was a clean exit, a detach, or the report of a success keyword that
   stands in a complete line of the output demultiplexed until then - the empty keyword aside.
   */
  ghost predicate StartedWell(su: Startup, successes: set<F.Text>)
    requires Plays(su) && Launches(su)
  {
    var s := AtVerdict(su);
    && H.Reachable(su.cfg, s) && s.seen != []
    && s.delivered == [H.ResultOf(s.seen[|s.seen| - 1])]
    && H.GoodCause(su.cfg, s.done, s.seen[|s.seen| - 1])
    && ([] !in successes ==> H.CleanCause(su.cfg, s.done, s.seen[|s.seen| - 1]))
  }

  lemma {:induction false} RunsOn(cfg: H.Config, s: H.State, steps: seq<H.Step>)
    requires H.Reachable(cfg, s) && H.CanRun(cfg, s, steps)
    ensures H.Reachable(cfg, H.Execute(cfg, s, steps))
    decreases |steps|
  {
    hide H.Reachable, H.Enabled, H.Apply;
    if steps != [] {
      var t := H.Next(cfg, s, steps[0]);
      RunsOn(cfg, t, steps[1..]);
    }
  }

  /** End to end: a start that is accepted has a good cause. */
  lemma AcceptedStartHasGoodCause(su: Startup, successes: set<F.Text>)
    requires Plays(su) && Proves(su) && su.cfg.successes == successes
    ensures StartedWell(su, successes)
  {
    hide H.Reachable, H.CanRun, H.Execute, H.Apply, H.GoodCause, H.CleanCause;
    ReachesVerdict(su);
    H.StartedHasGoodCause(su.cfg, AtVerdict(su));
    GoodIsClean(su.cfg, AtVerdict(su));
  }

  /** And one that is not accepted has none: the verdict is exactly that of the decisive item. */
  lemma ProvesIff(su: Startup)
    requires Plays(su) && Launches(su)
    ensures var s := AtVerdict(su);
            Proves(su) <==> s.delivered != [] && s.seen != [] && H.GoodCause(su.cfg, s.done, s.seen[|s.seen| - 1])
  {
    hide H.Reachable, H.CanRun, H.Execute, H.Apply, H.GoodCause;
    ReachesVerdict(su);
    H.StartedIffGoodCause(su.cfg, AtVerdict(su));
  }

  lemma ReachesVerdict(su: Startup)
    requires Plays(su) && Launches(su)
    ensures H.Reachable(su.cfg, AtVerdict(su))
  {
    hide H.Reachable, H.CanRun, H.Execute, H.Apply;
    H.InitialReachable(su.cfg);
    RunsOn(su.cfg, H.Initial(su.cfg), su.before);
    var s := H.Execute(su.cfg, H.Initial(su.cfg), su.before);
    var t := H.Next(su.cfg, s, H.Launch(true));
    RunsOn(su.cfg, t, su.after);
  }

  lemma GoodIsClean(cfg: H.Config, s: H.State)
    requires s.seen != [] && H.GoodCause(cfg, s.done, s.seen[|s.seen| - 1])
    ensures [] !in cfg.successes ==> H.CleanCause(cfg, s.done, s.seen[|s.seen| - 1])
  {
  }

  // ----- A start-up whose container exits at once.

  function ExitingConfig(successes: set<F.Text>, code: int): H.Config {
    H.Config([], F.Eof, C.Watch({}, 100), successes, true, false, [H.Die(H.Code(code))])
  }

  function Exiting(successes: set<F.Text>, code: int): Startup {
    Startup(true, true, ExitingConfig(successes, code), [H.WatchEvents(true)],
            [H.TakeEvent, H.Detach, H.HoldContext, H.RunStream, H.DeliverExit])
  }

  lemma OneStep(cfg: H.Config, s: H.State, steps: seq<H.Step>)
    requires steps != [] && H.Enabled(cfg, s, steps[0])
    ensures H.CanRun(cfg, s, steps) <==> H.CanRun(cfg, H.Apply(cfg, s, steps[0]), steps[1..])
    ensures H.CanRun(cfg, s, steps) ==> H.Execute(cfg, s, steps) == H.Execute(cfg, H.Apply(cfg, s, steps[0]), steps[1..])
  {
  }

  function LastSteps(): seq<H.Step> {
    [H.HoldContext, H.RunStream, H.DeliverExit]
  }

  /** The handshake once the container has died and the waiter has detached. */
  function Detached(cfg: H.Config, code: int): H.State {
    H.Initial(cfg).(waiter := H.Offering, runner := H.AwaitingStream, contextDone := true, events := [],
                    exitResult := C.ExitResult(code, []), seen := [H.Event(H.Die(H.Code(code)))])
  }

  lemma ExitingLaunches(successes: set<F.Text>, code: int)
    ensures var su := Exiting(successes, code);
            && H.CanRun(su.cfg, H.Initial(su.cfg), su.before)
            && H.Execute(su.cfg, H.Initial(su.cfg), su.before)
               == H.Initial(su.cfg).(waiter := H.Selecting, runner := H.Launching)
  {
    hide H.CanRun, H.Execute, H.FramesOf, H.NextScan;
    var su := Exiting(successes, code);
    OneStep(su.cfg, H.Initial(su.cfg), su.before);
    NoSteps(su.cfg, H.Apply(su.cfg, H.Initial(su.cfg), su.before[0]));
    assert su.before[1..] == [];
  }

  lemma ExitingDetaches(cfg: H.Config, s: H.State, code: int)
    requires cfg == ExitingConfig(cfg.successes, code)
    requires s == H.Initial(cfg).(waiter := H.Selecting, runner := H.AwaitingStream)
    ensures H.CanRun(cfg, s, [H.TakeEvent, H.Detach] + LastSteps()) <==> H.CanRun(cfg, Detached(cfg, code), LastSteps())
    ensures H.CanRun(cfg, s, [H.TakeEvent, H.Detach] + LastSteps()) ==>
              H.Execute(cfg, s, [H.TakeEvent, H.Detach] + LastSteps()) == H.Execute(cfg, Detached(cfg, code), LastSteps())
  {
    hide H.CanRun, H.Execute, H.FramesOf, H.NextScan, LastSteps;
    var steps := [H.TakeEvent, H.Detach] + LastSteps();
    OneStep(cfg, s, steps);
    var t := H.Apply(cfg, s, H.TakeEvent);
    assert steps[1..] == [H.Detach] + LastSteps();
    OneStep(cfg, t, steps[1..]);
    assert steps[1..][1..] == LastSteps();
    assert H.Apply(cfg, t, H.Detach) == Detached(cfg, code);
  }

  lemma ExitingEnds(cfg: H.Config, code: int)
    requires cfg == ExitingConfig(cfg.successes, code)
    ensures H.CanRun(cfg, Detached(cfg, code), LastSteps())
    ensures H.Execute(cfg, Detached(cfg, code), LastSteps()).runner == H.Returned(H.Verdict(cfg.successes, C.ExitResult(code, [])))
  {
    hide H.CanRun, H.Execute, H.FramesOf, H.NextScan;
    var s, steps := Detached(cfg, code), LastSteps();
    OneStep(cfg, s, steps);
    var t := H.Apply(cfg, s, H.HoldContext);
    assert steps[1..] == [H.RunStream, H.DeliverExit];
    OneStep(cfg, t, [H.RunStream, H.DeliverExit]);
    var u := H.Apply(cfg, t, H.RunStream);
    assert [H.RunStream, H.DeliverExit][1..] == [H.DeliverExit];
    OneStep(cfg, u, [H.DeliverExit]);
    assert [H.DeliverExit][1..] == [];
    NoSteps(cfg, H.Apply(cfg, u, H.DeliverExit));
  }

  /** Both kinds of start-ups exist: a container that exits at once proves its start exactly with exit code 0, the corner aside. */
  lemma ExitingProvesIff(successes: set<F.Text>, code: int)
    ensures var su := Exiting(successes, code);
            Plays(su) && Launches(su) && (Proves(su) <==> code == 0 || (code == 90510 && [] in successes))
  {
    hide H.CanRun, H.Execute, H.FramesOf, H.NextScan, Detached;
    var su := Exiting(successes, code);
    ExitingLaunches(successes, code);
    ExitingDetaches(su.cfg, H.Apply(su.cfg, H.Execute(su.cfg, H.Initial(su.cfg), su.before), H.Launch(true)), code);
    ExitingEnds(su.cfg, code);
    assert su.after == [H.TakeEvent, H.Detach] + LastSteps();
  }

  lemma NoSteps(cfg: H.Config, s: H.State)
    ensures H.CanRun(cfg, s, []) && H.Execute(cfg, s, []) == s
  {
  }
}
