/**
 The ways in which a rollback can leave something other than the initial world, each as a
 deployment that does so: one answer of the daemon is enough.
 */
module RollbackFailures {
  import opened Options
  import opened Daemon
  import opened Containers
  import opened Startups
  import opened Deployment

  /** A daemon on which only call number `n` fails, with the service's container running. */
  method RunningService(service: Service, n: nat) returns (d: Deployment)
    requires n >= 2
    ensures fresh(d) && fresh(d.daemon) && fresh(d.container)
    ensures d.service == service && d.Ready() && d.original == null && d.container.id == None
    ensures d.container.image == Some(service.imageName)
    ensures d.container.config == Config(map[], [], map[], map[], None)
    ensures service.imageName in d.daemon.images
    ensures d.daemon.next == 2 && d.daemon.deaths == []
    ensures d.daemon.containers == map[0 := Record(service.containerName, true, 0, ConfigOf(service))]
    ensures forall i :: MomentAt(d.daemon.script, i) == Moment([], i == n)
  {
    var daemon := new Docker(map[service.imageName := 0], seq(n + 1, i => Moment([], i == n)));
    var ok, id := daemon.Create(service.containerName, service.imageName, ConfigOf(service));
    ghost var w := daemon.containers;
    FadedStands(map[0 := Record(service.containerName, false, 0, ConfigOf(service))], w, [], daemon.deaths);
    ok := daemon.Start(id);
    FadedStands(SetRunning(w, 0, true), daemon.containers, [], daemon.deaths);
    var store := new RecordStore();
    d := new Deployment(daemon, store, service, None);
    d.container.image := Some(service.imageName);
  }

  /**
   The rollback's renaming fails (call 14), the start after it succeeds, and the run's
   rollback counts as done - with the original running under its backup name.
   */
  method FailedRenamingGoesUnnoticed(service: Service, stamp: string, startup: Startup)
    returns (d: Deployment, result: RunResult, ghost before: World)
    requires Plays(startup) && Launches(startup) && !Proves(startup)
    ensures before == map[0 := Record(service.containerName, true, 0, ConfigOf(service))]
    ensures result == RunFailed(Created, true, true)
    ensures !Named(d.daemon.containers, 0, service.containerName)
    ensures forall d0, d1 :: !Faded(before, d.daemon.containers, d0, d1)
  {
    hide Faded, Plays, Launches, Proves, Bystanders, EarlyWorld, Calm;
    d := RunningService(service, 14);
    before := d.daemon.containers;
    OnlyCallFails(d.daemon.script, 14);
    assert Named(before, 0, service.containerName);
    NamedIsTaken(before, service.containerName);
    LongerName(service.containerName, stamp);
    ghost var found, renameCall, clean;
    result, found, renameCall, clean := d.Run(stamp, startup);
    assert found == Some(0);
    forall d0, d1 ensures !Faded(before, d.daemon.containers, d0, d1) {
      if Faded(before, d.daemon.containers, d0, d1) {
        FadedNamed(before, d.daemon.containers, d0, d1, service.containerName);
      }
    }
  }

  /**
   The question whether the original runs fails (call 3): the rollback purges the original in
   place of a new container, and counts as done.
   */
  method FailedQuestionRemovesOriginal(service: Service, stamp: string, startup: Startup)
    returns (d: Deployment, result: RunResult, ghost before: World)
    requires Plays(startup)
    ensures before == map[0 := Record(service.containerName, true, 0, ConfigOf(service))]
    ensures result == RunFailed(Seen, true, true)
    ensures d.daemon.containers == map[]
  {
    hide Plays, Launches, Proves, Bystanders, Calm;
    d := RunningService(service, 3);
    before := d.daemon.containers;
    OnlyCallFails(d.daemon.script, 3);
    assert Named(before, 0, service.containerName);
    NamedIsTaken(before, service.containerName);
    ghost var found, renameCall, clean;
    result, found, renameCall, clean := d.Run(stamp, startup);
    assert found == Some(0);
    assert before - {0} == map[];
  }

  /**
   The creation fails (call 8): the rollback gives up, and the original stays where it is,
   stopped, under its backup name.
   */
  method FailedCreationLeavesOriginalAside(service: Service, stamp: string, startup: Startup)
    returns (d: Deployment, result: RunResult, ghost before: World)
    requires Plays(startup)
    ensures before == map[0 := Record(service.containerName, true, 0, ConfigOf(service))]
    ensures result == RunFailed(Moved, false, false)
    ensures d.daemon.containers == map[0 := Record(service.containerName + "-" + stamp, false, 0, ConfigOf(service))]
  {
    hide Plays, Launches, Proves, Bystanders, Calm;
    d := RunningService(service, 8);
    before := d.daemon.containers;
    OnlyCallFails(d.daemon.script, 8);
    assert Named(before, 0, service.containerName);
    NamedIsTaken(before, service.containerName);
    LongerName(service.containerName, stamp);
    ghost var found, renameCall, clean;
    result, found, renameCall, clean := d.Run(stamp, startup);
    assert found == Some(0);
    StoppedStays(Rolling(before, found, BackupName(service.containerName, stamp)), d.daemon.containers, [], d.daemon.deaths);
  }

  /** Where nothing runs nothing dies. */
  lemma StoppedStays(w0: World, w1: World, d0: seq<Id>, d1: seq<Id>)
    requires Faded(w0, w1, d0, d1) && forall i | i in w0 :: !w0[i].running
    ensures w0 == w1
  {
  }

  lemma OnlyCallFails(script: seq<Moment>, n: nat)
    requires forall i :: MomentAt(script, i) == Moment([], i == n)
    ensures forall from: nat, to: nat | to <= n || from > n :: Calm(script, from, to)
  {
  }
}
