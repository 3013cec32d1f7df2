/** The loop that deploys all services, and what it leaves standing. */
module Services {
  import opened Options
  import opened Daemon
  import opened Containers
  import opened Startups
  import opened Deployment

  /** The stored record of the service describes the container that bears its name. */
  ghost predicate Committed(w: World, files: map<string, SavedRecord>, s: Service) {
    s.name in files && exists id :: Matches(files[s.name], s, w, id)
  }

  /** Committed, and the container is running. */
  ghost predicate UpAndRunning(w: World, files: map<string, SavedRecord>, s: Service) {
    s.name in files && exists id :: Matches(files[s.name], s, w, id) && w[id].running
  }

  /** Every container that is there before and after is the same, or has died. */
  ghost predicate Survive(w0: World, w1: World, d0: seq<Id>, d1: seq<Id>) {
    d0 <= d1 && forall i | i in w0 && i in w1 :: SameOrDied(w0[i], w1[i], DiedBetween(i, d0, d1))
  }

  lemma TookOverSurvive(w0: World, w1: World, d0: seq<Id>, d1: seq<Id>, found: Option<Id>, newId: Id, r: Record)
    requires TookOver(w0, w1, d0, d1, found, newId, r) && newId !in w0
    ensures Survive(w0, w1, d0, d1)
    ensures w1[newId].running || DiedBetween(newId, d0, d1)
  {
  }

  lemma FadedSurvive(w0: World, w1: World, d0: seq<Id>, d1: seq<Id>)
    requires Faded(w0, w1, d0, d1)
    ensures Survive(w0, w1, d0, d1)
  {
  }

  /** In place of the original there is a container made with the service's settings, its mounts excepted. */
  ghost predicate Exchanged(w0: World, w1: World, nextId: Id, images: map<string, ImageId>, s: Service, found: Option<Id>, id: Id) {
    && IsOriginal(w0, s.containerName, found)
    && id !in w0 && id >= nextId && w1.Keys == Without(w0, found).Keys + {id}
    && s.imageName in images && id in w1
    && w1[id].name == s.containerName && w1[id].image == images[s.imageName]
    && w1[id].config == Config(s.env, s.args, s.ports, map[], Some(s.network))
  }

  /** The original stopped and set aside, and the new container running. */
  function SideBySide(w: World, original: Id, backup: string, id: Id, s: Service, image: ImageId): World
    requires original in w
  {
    w[original := w[original].(running := false, name := backup)]
     [id := Record(s.containerName, true, image, Config(s.env, s.args, s.ports, map[], Some(s.network)))]
  }

  /**
   What a deployment that succeeds leaves: the record describes the container in place, which
   runs or has died, and is the only new one if it is new; no other container has changed.
   */
  ghost predicate Served(w0: World, w1: World, d0: seq<Id>, d1: seq<Id>, nextId: Id, files: map<string, SavedRecord>,
                         s: Service, id: Id)
  {
    && s.name in files && Matches(files[s.name], s, w1, id)
    && (w1[id].running || DiedBetween(id, d0, d1))
    && (id in w0 || (id >= nextId && w1[id].config == Config(s.env, s.args, s.ports, map[], Some(s.network))))
    && (forall i | i in w1 && i !in w0 :: i == id)
    && Survive(w0, w1, d0, d1)
  }

  /** Where a container has taken over, one is exchanged; if it is recorded as well, the service is served. */
  lemma ExchangedBy(w0: World, w1: World, d0: seq<Id>, d1: seq<Id>, nextId: Id, images: map<string, ImageId>, s: Service,
                    found: Option<Id>, id: Id, files: map<string, SavedRecord>)
    requires (forall i | i in w0 :: i < nextId) && id >= nextId && s.imageName in images && IsOriginal(w0, s.containerName, found)
    requires TookOver(w0, w1, d0, d1, found, id, Record(s.containerName, false, images[s.imageName], ConfigOf(s)))
    ensures Exchanged(w0, w1, nextId, images, s, found, id) && id in w1
    ensures s.name in files && Matches(files[s.name], s, w1, id) ==> Served(w0, w1, d0, d1, nextId, files, s, id)
  {
    TookOverSurvive(w0, w1, d0, d1, found, id, Record(s.containerName, false, images[s.imageName], ConfigOf(s)));
  }

  /** Where nothing has changed but for deaths, it is served if it was. */
  lemma ServedStill(w0: World, w1: World, d0: seq<Id>, d1: seq<Id>, nextId: Id, s: Service, id: Id, files: map<string, SavedRecord>)
    requires Faded(w0, w1, d0, d1)
    requires s.name in files && Matches(files[s.name], s, w1, id) && w1[id].running
    ensures Served(w0, w1, d0, d1, nextId, files, s, id) && id in w0
    ensures d0 == d1 ==> w0 == w1
  {
    FadedSurvive(w0, w1, d0, d1);
    FadedStands(w0, w1, d0, d1);
  }

  lemma OriginalThere(w: World, name: string, found: Option<Id>)
    requires IsOriginal(w, name, found)
    ensures found.Some? ==> found.value in w
  {
  }

  lemma SideBySideIs(w: World, original: Id, backup: string, id: Id, s: Service, image: ImageId)
    requires original in w
    ensures SideBySide(w, original, backup, id, s, image)
         == Rolling(w, Some(original), backup)[id := Record(s.containerName, true, image, ConfigOf(s))]
  {
  }

  /** Reads the record of the service and makes a deployment of the two. */
  method FromService(daemon: Docker, store: RecordStore, service: Service) returns (d: Deployment?)
    requires daemon.Valid()
    modifies store`faults
    ensures d == null ==> store.faults > old(store.faults)
    ensures d != null ==>
              && store.faults == old(store.faults) && fresh(d) && fresh(d.container)
              && d.daemon == daemon && d.store == store && d.service == service
              && d.record == (if service.name in store.files then Some(store.files[service.name]) else None)
              && d.Ready() && d.original == null && d.container.id == None
              && d.container.config == Config(map[], [], map[], map[], None)
  {
    var ok, r := store.Read(service.name);
    if !ok {
      return null;
    }
    d := new Deployment(daemon, store, service, r);
  }

  /**
   One service as the main loop deploys it: read its record, then deploy. `id` is the
   container that is in place afterwards.
   */
  method DeployService(daemon: Docker, store: RecordStore, service: Service, stamp: string, startup: Startup)
    returns (result: DeployResult, ghost found: Option<Id>, ghost id: Option<Id>, ghost renameCall: nat, ghost clean: bool)
    requires daemon.Valid() && Plays(startup) && startup.cfg.successes == service.successes
    modifies daemon, store
    ensures daemon.Went(false) && store.faults >= old(store.faults)
    // Commit: exactly one container is exchanged, on a proof of its start.
    ensures result.Deployed? || result == Failed(SaveFailed) ==>
              && id.Some? && Launches(startup) && Proves(startup) && StartedWell(startup, service.successes)
              && Exchanged(old(daemon.containers), daemon.containers, old(daemon.nextId), daemon.images, service, found, id.value)
    // And the one record is written.
    ensures result.Deployed? ==>
              store.files == old(store.files)[service.name :=
                SavedRecord(service.name, id, service.containerName, Some(daemon.containers[id.value].image),
                            service.args, service.env, service.ports, service.mounts)]
    ensures !result.Deployed? ==> store.files == old(store.files)
    // Not changed: the record is of what runs, and of what is configured.
    ensures result.NotChanged? ==>
              && daemon.OnlyDeaths()
              && id.Some? && id.value in old(daemon.containers) && daemon.containers[id.value].running
              && service.name in store.files && Matches(store.files[service.name], service, daemon.containers, id.value)
    ensures result.Deployed? || result.NotChanged? ==>
              && id.Some? && id.value in daemon.containers
              && Served(old(daemon.containers), daemon.containers, old(daemon.deaths), daemon.deaths, old(daemon.nextId),
                        store.files, service, id.value)
    // Idempotence: with the record committed and its container running, nothing happens.
    ensures UpAndRunning(old(daemon.containers), old(store.files), service)
            && daemon.faults == old(daemon.faults) && store.faults == old(store.faults) && daemon.deaths == old(daemon.deaths)
            ==> result.NotChanged? && daemon.containers == old(daemon.containers)
    // Rollback: after a failed run.
    ensures result.Failed? && result.failure.RunFailure? ==>
              && result.failure.run.RunFailed?
              && FailedRun(old(daemon.containers), daemon.containers, old(daemon.deaths), daemon.deaths, found, service.containerName,
                           BackupName(service.containerName, stamp), result.failure.run, clean,
                           MomentAt(daemon.script, renameCall).fails)
    // The new container runs, but the original could not be removed: it is stopped and has the backup name.
    ensures result == Failed(PurgeFailed) ==>
              && found.Some? && found.value in old(daemon.containers) && id.Some? && id.value !in old(daemon.containers)
              && Proves(startup) && service.imageName in daemon.images
              && daemon.Became(SideBySide(old(daemon.containers), found.value, BackupName(service.containerName, stamp),
                                          id.value, service, daemon.images[service.imageName]))
    // Before the run nothing is done.
    ensures result == Failed(RecordUnreadable) || result == Failed(CheckFailed) || result == Failed(ImageFailed) ==> daemon.OnlyDeaths()
    ensures result == Failed(ImageFailed) ==> !startup.imageReady
    // With an image, a backup name and a proof of the start it takes a failing call to keep it from succeeding.
    ensures startup.imageReady && service.imageName in daemon.images && Proves(startup) && result.Failed?
            && (found.Some? ==> NameFree(old(daemon.containers), BackupName(service.containerName, stamp)))
            ==> daemon.faults > old(daemon.faults) || store.faults > old(store.faults)
    ensures Bystanders(old(daemon.containers), daemon.containers, old(daemon.deaths), daemon.deaths,
                       service.containerName, old(daemon.nextId))
  {
    hide Faded, UniqueNames, Bystanders, Plays, Launches, Proves, StartedWell, MomentAt, FailedRun;
    hide IsOriginal, TookOver, Exchanged, Served, SideBySide, Rolling, ConfigOf, NameFree;
    found, id, renameCall, clean := None, None, 0, false;
    ghost var w0, d0, n0 := daemon.containers, daemon.deaths, daemon.nextId;
    FadedReflexive(w0, d0);
    BystandersOf(w0, w0, w0, d0, d0, service.containerName, n0);
    var d := FromService(daemon, store, service);
    if d == null {
      return Failed(RecordUnreadable), found, id, renameCall, clean;
    }
    result, found, renameCall, clean := d.Deploy(stamp, startup);
    ghost var w1, d1 := daemon.containers, daemon.deaths;
    id := d.container.id;
    if result.Deployed? || result == Failed(SaveFailed) {
      d.NewRecordIs();
      ExchangedBy(w0, w1, d0, d1, n0, daemon.images, service, found, id.value, store.files);
    } else if result == Failed(PurgeFailed) {
      d.NewRecordIs();
      OriginalThere(w0, service.containerName, found);
      SideBySideIs(w0, found.value, d.Backup(stamp), id.value, service, daemon.images[service.imageName]);
    } else if result.NotChanged? {
      ServedStill(w0, w1, d0, d1, n0, service, id.value, store.files);
    }
    if UpAndRunning(w0, old(store.files), service) && d1 == d0 {
      ghost var i :| Matches(old(store.files)[service.name], service, w0, i) && w0[i].running;
      assert !DiedBetween(i, d0, d0);
    }
  }

  /**
   A service deployed, and deployed again as configured then: with the same record file, the
   second deployment changes nothing only if arguments, environment, ports and mounts are the
   same, and the container name as well; and if no call fails and nobody dies, exactly then.
   Image, network and keywords do not matter.
   */
  method DeployAgain(daemon: Docker, store: RecordStore, s1: Service, s2: Service, stamp1: string, stamp2: string,
                     startup1: Startup, startup2: Startup)
    returns (first: DeployResult, second: DeployResult)
    requires daemon.Valid() && s1.name == s2.name
    requires Plays(startup1) && startup1.cfg.successes == s1.successes
    requires Plays(startup2) && startup2.cfg.successes == s2.successes
    modifies daemon, store
    ensures first.Deployed? && second.NotChanged? ==>
              && s1.args == s2.args && s1.env == s2.env && s1.ports == s2.ports && s1.mounts == s2.mounts
              && s1.containerName == s2.containerName
    ensures first.Deployed?
            && daemon.faults == old(daemon.faults) && store.faults == old(store.faults) && daemon.deaths == old(daemon.deaths) ==>
              (second.NotChanged? <==>
                 && s1.args == s2.args && s1.env == s2.env && s1.ports == s2.ports && s1.mounts == s2.mounts
                 && s1.containerName == s2.containerName)
  {
    hide Faded, UniqueNames, Bystanders, Survive, Plays, Launches, Proves, StartedWell, MomentAt, FailedRun, IsOriginal;
    ghost var found1, id1, call1, clean1, found2, id2, call2, clean2;
    first, found1, id1, call1, clean1 := DeployService(daemon, store, s1, stamp1, startup1);
    ghost var w1, d1 := daemon.containers, daemon.deaths;
    if first.Deployed? {
      assert Named(w1, id1.value, s1.containerName);
      assert s1.args == s2.args && s1.env == s2.env && s1.ports == s2.ports && s1.mounts == s2.mounts && s1.containerName == s2.containerName ==>
               Matches(store.files[s2.name], s2, w1, id1.value);
    }
    second, found2, id2, call2, clean2 := DeployService(daemon, store, s2, stamp2, startup2);
    if second.NotChanged? {
      FadedNamed(w1, daemon.containers, d1, daemon.deaths, s1.containerName);
    }
  }

  /** No two services share a record file or a container name. */
  ghost predicate Distinct(services: seq<Service>) {
    forall i, j | 0 <= i < j < |services| ::
      services[i].name != services[j].name && services[i].containerName != services[j].containerName
  }

  /** The container name of one of the first `n` services that are deployed. */
  ghost predicate Serves(services: seq<Service>, n: nat, name: string) {
    exists k :: 0 <= k < n && k < |services| && services[k].third && services[k].containerName == name
  }

  ghost predicate AllCommitted(w: World, files: map<string, SavedRecord>, services: seq<Service>, n: nat) {
    forall k | 0 <= k < n && k < |services| && services[k].third :: Committed(w, files, services[k])
  }

  ghost predicate AllUpAndRunning(w: World, files: map<string, SavedRecord>, services: seq<Service>) {
    forall k | 0 <= k < |services| && services[k].third :: UpAndRunning(w, files, services[k])
  }

  // ----- Containers of no service.

  /**
   Containers that bear no deployed service's name are as they were; any further one is new
   and bears such a name.
   */
  ghost predicate Untouched(w0: World, w1: World, d0: seq<Id>, d1: seq<Id>, services: seq<Service>, n: nat, nextId: Id) {
    && d0 <= d1
    && (forall i | i in w0 && !Serves(services, n, w0[i].name) :: i in w1 && SameOrDied(w0[i], w1[i], DiedBetween(i, d0, d1)))
    && (forall i | i in w1 && i !in w0 :: i >= nextId && Serves(services, n, w1[i].name))
  }

  /** A new container of an earlier service does not bear the next one's name. */
  lemma UntouchedNext(w0: World, w1: World, w2: World, d0: seq<Id>, d1: seq<Id>, d2: seq<Id>, services: seq<Service>, n: nat,
                      nextId0: Id, nextId1: Id)
    requires n < |services| && services[n].third && nextId0 <= nextId1 && Distinct(services)
    requires Untouched(w0, w1, d0, d1, services, n, nextId0)
    requires Bystanders(w1, w2, d1, d2, services[n].containerName, nextId1)
    ensures Untouched(w0, w2, d0, d2, services, n + 1, nextId0)
  {
    forall i | i in w2 && i !in w0 ensures i >= nextId0 && Serves(services, n + 1, w2[i].name) {
      if i in w1 {
        assert w1[i].name != services[n].containerName;
      }
    }
  }

  lemma UntouchedMore(w0: World, w1: World, d0: seq<Id>, d1: seq<Id>, services: seq<Service>, n: nat, m: nat, nextId: Id)
    requires n <= m && Untouched(w0, w1, d0, d1, services, n, nextId)
    ensures Untouched(w0, w1, d0, d1, services, m, nextId)
  {
    assert forall name :: Serves(services, n, name) ==> Serves(services, m, name);
  }

  // ----- Containers of the services deployed already.

  /** A container as it was right after the deployment of its service, and the log of deaths then. */
  datatype Mark = Mark(id: Id, record: Record, deaths: seq<Id>)

  /**
   What the mark of a service says about the start (`w0`, `d0`) and the present (`w`, `d`): right after
   its deployment the container ran, unless it had died, and was either that of the start or
   made with the service's settings; it is there now, the same unless it has died since,
   and the stored record describes it.
   */
  ghost predicate InPlace(w0: World, w: World, d0: seq<Id>, d: seq<Id>, files: map<string, SavedRecord>, s: Service, m: Mark) {
    && d0 <= m.deaths <= d
    && (m.record.running || DiedBetween(m.id, d0, m.deaths))
    && (if m.id in w0 then SameOrDied(w0[m.id], m.record, DiedBetween(m.id, d0, m.deaths)) else m.record.config == ConfigOf(s))
    && m.id in w && SameOrDied(m.record, w[m.id], DiedBetween(m.id, m.deaths, d))
    && s.name in files && Matches(files[s.name], s, w, m.id)
  }

  /** Whatever a deployment of another service does, the container stays in place. */
  lemma InPlaceStays(w0: World, w1: World, w2: World, d0: seq<Id>, d1: seq<Id>, d2: seq<Id>, nextId: Id,
                     files1: map<string, SavedRecord>, files2: map<string, SavedRecord>, s: Service, m: Mark, other: Service)
    requires InPlace(w0, w1, d0, d1, files1, s, m)
    requires Bystanders(w1, w2, d1, d2, other.containerName, nextId) && s.containerName != other.containerName
    requires s.name in files2 && files2[s.name] == files1[s.name]
    ensures InPlace(w0, w2, d0, d2, files2, s, m)
  {
    DiedBetweenMonotone(m.id, m.deaths, d1, d2);
  }

  lemma SurviveNext(w0: World, w1: World, w2: World, d0: seq<Id>, d1: seq<Id>, d2: seq<Id>, nextId: Id, id: Id)
    requires Survive(w0, w1, d0, d1) && Survive(w1, w2, d1, d2) && (forall i | i in w0 :: i < nextId)
    requires forall i | i in w2 && i !in w1 :: i == id && i >= nextId
    ensures Survive(w0, w2, d0, d2)
  {
    forall i | i in w0 && i in w2 ensures SameOrDied(w0[i], w2[i], DiedBetween(i, d0, d2)) {
      DiedBetweenMonotone(i, d0, d1, d2);
    }
  }

  /** The mark of a service that has just been deployed, or found to be up to date. */
  lemma InPlaceAtFirst(w0: World, w1: World, w2: World, d0: seq<Id>, d1: seq<Id>, d2: seq<Id>, services: seq<Service>, n: nat,
                       nextId0: Id, nextId1: Id, files: map<string, SavedRecord>, id: Id)
    requires n < |services| && services[n].third && Distinct(services) && nextId0 <= nextId1
    requires Survive(w0, w1, d0, d1) && Untouched(w0, w1, d0, d1, services, n, nextId0) && (forall i | i in w0 :: i < nextId0)
    requires Served(w1, w2, d1, d2, nextId1, files, services[n], id)
    ensures InPlace(w0, w2, d0, d2, files, services[n], Mark(id, w2[id], d2))
  {
    DiedBetweenMonotone(id, d0, d1, d2);
    if id in w1 {
      assert w1[id].name == services[n].containerName;
      assert !Serves(services, n, w1[id].name);
    }
  }

  /** The services among the first `|marks|` that are deployed are in place, as their marks say. */
  ghost predicate AllInPlace(w0: World, w: World, d0: seq<Id>, d: seq<Id>, files: map<string, SavedRecord>,
                             services: seq<Service>, marks: seq<Option<Mark>>) {
    && |marks| <= |services|
    && forall k | 0 <= k < |marks| && services[k].third ::
         marks[k].Some? && InPlace(w0, w, d0, d, files, services[k], marks[k].value)
  }

  lemma AllInPlaceStays(w0: World, w1: World, w2: World, d0: seq<Id>, d1: seq<Id>, d2: seq<Id>, nextId: Id,
                        files1: map<string, SavedRecord>, files2: map<string, SavedRecord>,
                        services: seq<Service>, marks: seq<Option<Mark>>)
    requires |marks| < |services| && Distinct(services)
    requires AllInPlace(w0, w1, d0, d1, files1, services, marks)
    requires Bystanders(w1, w2, d1, d2, services[|marks|].containerName, nextId)
    requires forall name | name in files1 && name != services[|marks|].name :: name in files2 && files2[name] == files1[name]
    ensures AllInPlace(w0, w2, d0, d2, files2, services, marks)
  {
    hide InPlace, Bystanders;
    forall k | 0 <= k < |marks| && services[k].third
      ensures InPlace(w0, w2, d0, d2, files2, services[k], marks[k].value)
    {
      InPlaceRecorded(w0, w1, d0, d1, files1, services[k], marks[k].value);
      InPlaceStays(w0, w1, w2, d0, d1, d2, nextId, files1, files2, services[k], marks[k].value, services[|marks|]);
    }
  }

  lemma InPlaceRecorded(w0: World, w: World, d0: seq<Id>, d: seq<Id>, files: map<string, SavedRecord>, s: Service, m: Mark)
    requires InPlace(w0, w, d0, d, files, s, m)
    ensures Committed(w, files, s)
    ensures d0 == d ==> UpAndRunning(w, files, s)
  {
    if d0 == d {
      assert m.deaths == d;
      assert w[m.id].running;
    }
  }

  lemma AllInPlaceRecorded(w0: World, w: World, d0: seq<Id>, d: seq<Id>, files: map<string, SavedRecord>,
                           services: seq<Service>, marks: seq<Option<Mark>>)
    requires AllInPlace(w0, w, d0, d, files, services, marks)
    ensures AllCommitted(w, files, services, |marks|)
    ensures |marks| == |services| && d0 == d ==> AllUpAndRunning(w, files, services)
  {
    hide InPlace, Committed, UpAndRunning;
    forall k | 0 <= k < |marks| && services[k].third
      ensures Committed(w, files, services[k]) && (d0 == d ==> UpAndRunning(w, files, services[k]))
    {
      InPlaceRecorded(w0, w, d0, d, files, services[k], marks[k].value);
    }
  }

  lemma AllInPlaceMore(w0: World, w: World, d0: seq<Id>, d: seq<Id>, files: map<string, SavedRecord>,
                       services: seq<Service>, marks: seq<Option<Mark>>, m: Option<Mark>)
    requires |marks| < |services| && AllInPlace(w0, w, d0, d, files, services, marks)
    requires services[|marks|].third ==> m.Some? && InPlace(w0, w, d0, d, files, services[|marks|], m.value)
    ensures AllInPlace(w0, w, d0, d, files, services, marks + [m])
  {
    hide InPlace;
  }

  /** How things stand after the first `|marks|` services, if all their deployments have succeeded. */
  ghost predicate Standing(w0: World, w: World, d0: seq<Id>, d: seq<Id>, files0: map<string, SavedRecord>, files: map<string, SavedRecord>,
                           services: seq<Service>, marks: seq<Option<Mark>>, nextId: Id) {
    && AllInPlace(w0, w, d0, d, files, services, marks)
    && Survive(w0, w, d0, d)
    && (forall i | i in w0 :: i < nextId)
    && Untouched(w0, w, d0, d, services, |marks|, nextId)
    && files - Records(services, |marks|) == files0 - Records(services, |marks|)
  }

  /** The record files of the first `n` services that are deployed. */
  ghost function Records(services: seq<Service>, n: nat): set<string> {
    set k | 0 <= k < n && k < |services| && services[k].third :: services[k].name
  }

  lemma StandingAtFirst(w: World, d: seq<Id>, files: map<string, SavedRecord>, services: seq<Service>, nextId: Id)
    requires forall i | i in w :: i < nextId
    ensures Standing(w, w, d, d, files, files, services, [], nextId)
  {
  }

  /** One more deployment has succeeded. */
  lemma StandingNext(w0: World, w1: World, w2: World, d0: seq<Id>, d1: seq<Id>, d2: seq<Id>, files0: map<string, SavedRecord>,
                     files1: map<string, SavedRecord>, files2: map<string, SavedRecord>, services: seq<Service>,
                     marks: seq<Option<Mark>>, nextId0: Id, nextId1: Id, id: Id)
    requires |marks| < |services| && services[|marks|].third && Distinct(services) && nextId0 <= nextId1
    requires Standing(w0, w1, d0, d1, files0, files1, services, marks, nextId0)
    requires Served(w1, w2, d1, d2, nextId1, files2, services[|marks|], id)
    requires Bystanders(w1, w2, d1, d2, services[|marks|].containerName, nextId1)
    requires files2 == files1[services[|marks|].name := files2[services[|marks|].name]]
    ensures Standing(w0, w2, d0, d2, files0, files2, services, marks + [Some(Mark(id, w2[id], d2))], nextId0)
  {
    hide Bystanders, Untouched, Survive, AllInPlace, InPlace, Matches;
    UntouchedNext(w0, w1, w2, d0, d1, d2, services, |marks|, nextId0, nextId1);
    AllInPlaceStays(w0, w1, w2, d0, d1, d2, nextId1, files1, files2, services, marks);
    SurviveNext(w0, w1, w2, d0, d1, d2, nextId0, id);
    InPlaceAtFirst(w0, w1, w2, d0, d1, d2, services, |marks|, nextId0, nextId1, files2, id);
    AllInPlaceMore(w0, w2, d0, d2, files2, services, marks, Some(Mark(id, w2[id], d2)));
    RecordsNext(services, |marks|, files0, files1, files2[services[|marks|].name]);
  }

  lemma RecordsNext(services: seq<Service>, n: nat, files0: map<string, SavedRecord>, files1: map<string, SavedRecord>, r: SavedRecord)
    requires n < |services| && services[n].third && files1 - Records(services, n) == files0 - Records(services, n)
    ensures files1[services[n].name := r] - Records(services, n + 1) == files0 - Records(services, n + 1)
  {
    var before, after := Records(services, n), Records(services, n + 1);
    assert after == before + {services[n].name};
    assert files1[services[n].name := r] - after == (files1 - before) - {services[n].name};
    assert files0 - after == (files0 - before) - {services[n].name};
  }

  lemma RecordsSkip(services: seq<Service>, n: nat)
    requires n < |services| && !services[n].third
    ensures Records(services, n + 1) == Records(services, n)
  {
  }

  /** A service that is not deployed is passed over. */
  lemma StandingSkip(w0: World, w1: World, d0: seq<Id>, d1: seq<Id>, files0: map<string, SavedRecord>, files1: map<string, SavedRecord>,
                     services: seq<Service>, marks: seq<Option<Mark>>, nextId: Id)
    requires |marks| < |services| && !services[|marks|].third
    requires Standing(w0, w1, d0, d1, files0, files1, services, marks, nextId)
    ensures Standing(w0, w1, d0, d1, files0, files1, services, marks + [None], nextId)
  {
    hide Untouched, Survive, AllInPlace;
    UntouchedMore(w0, w1, d0, d1, services, |marks|, |marks| + 1, nextId);
    AllInPlaceMore(w0, w1, d0, d1, files1, services, marks, None);
    RecordsSkip(services, |marks|);
  }

  /** A deployment has failed: the services before it stay in place. */
  lemma StandingAtLast(w0: World, w1: World, w2: World, d0: seq<Id>, d1: seq<Id>, d2: seq<Id>, files0: map<string, SavedRecord>,
                       files: map<string, SavedRecord>, services: seq<Service>, marks: seq<Option<Mark>>, nextId0: Id, nextId1: Id)
    requires |marks| < |services| && services[|marks|].third && Distinct(services) && nextId0 <= nextId1
    requires Standing(w0, w1, d0, d1, files0, files, services, marks, nextId0)
    requires Bystanders(w1, w2, d1, d2, services[|marks|].containerName, nextId1)
    ensures AllInPlace(w0, w2, d0, d2, files, services, marks)
    ensures AllCommitted(w2, files, services, |marks|)
    ensures Untouched(w0, w2, d0, d2, services, |marks| + 1, nextId0)
  {
    hide Bystanders, Untouched, Survive, AllInPlace, InPlace, Matches, AllCommitted;
    UntouchedNext(w0, w1, w2, d0, d1, d2, services, |marks|, nextId0, nextId1);
    AllInPlaceStays(w0, w1, w2, d0, d1, d2, nextId1, files, files, services, marks);
    AllInPlaceRecorded(w0, w2, d0, d2, files, services, marks);
  }

  /**
   What speaks for the deployment of service `n` from the start: its image can be had, its
   start-up proves the start, and nothing bears its backup name or will be given it.
   */
  ghost predicate Promising(w0: World, images: map<string, ImageId>, services: seq<Service>, n: nat, stamp: string, startup: Startup)
    requires n < |services| && Plays(startup)
  {
    && startup.imageReady && services[n].imageName in images && Proves(startup)
    && var backup := BackupName(services[n].containerName, stamp);
       NameFree(w0, backup) && !Serves(services, n, backup)
  }

  lemma StillPromising(w0: World, w1: World, d0: seq<Id>, d1: seq<Id>, images: map<string, ImageId>, services: seq<Service>, n: nat,
                       stamp: string, startup: Startup, nextId: Id)
    requires n < |services| && Plays(startup) && Promising(w0, images, services, n, stamp, startup)
    requires Survive(w0, w1, d0, d1) && Untouched(w0, w1, d0, d1, services, n, nextId)
    ensures NameFree(w1, BackupName(services[n].containerName, stamp))
  {
  }

  /** What spoke for the service that failed still did when its turn came. */
  lemma FailedInSpite(w0: World, w1: World, d0: seq<Id>, d1: seq<Id>, files0: map<string, SavedRecord>, files: map<string, SavedRecord>,
                      images: map<string, ImageId>, services: seq<Service>, marks: seq<Option<Mark>>, stamp: string, startup: Startup,
                      nextId: Id)
    requires |marks| < |services| && Plays(startup)
    requires Standing(w0, w1, d0, d1, files0, files, services, marks, nextId)
    ensures files - Records(services, |marks|) == files0 - Records(services, |marks|)
    ensures Promising(w0, images, services, |marks|, stamp, startup) ==>
              && startup.imageReady && services[|marks|].imageName in images && Proves(startup)
              && NameFree(w1, BackupName(services[|marks|].containerName, stamp))
  {
    if Promising(w0, images, services, |marks|, stamp, startup) {
      StillPromising(w0, w1, d0, d1, images, services, |marks|, stamp, startup, nextId);
    }
  }

  lemma StandingAtTheEnd(w0: World, w1: World, d0: seq<Id>, d1: seq<Id>, files0: map<string, SavedRecord>,
                         files: map<string, SavedRecord>, services: seq<Service>, marks: seq<Option<Mark>>, nextId: Id)
    requires |marks| == |services|
    requires Standing(w0, w1, d0, d1, files0, files, services, marks, nextId)
    ensures AllInPlace(w0, w1, d0, d1, files, services, marks)
    ensures AllCommitted(w1, files, services, |marks|)
    ensures d0 == d1 ==> AllUpAndRunning(w1, files, services)
    ensures Untouched(w0, w1, d0, d1, services, |marks| + 1, nextId)
    ensures files - Records(services, |marks|) == files0 - Records(services, |marks|)
  {
    hide Untouched, Survive, AllInPlace, AllCommitted, AllUpAndRunning;
    AllInPlaceRecorded(w0, w1, d0, d1, files, services, marks);
    UntouchedMore(w0, w1, d0, d1, services, |marks|, |marks| + 1, nextId);
  }

  // ----- The loop.

  /** The start-ups fit the services. */
  ghost predicate Fit(services: seq<Service>, startups: seq<Startup>) {
    && |startups| == |services|
    && forall k | 0 <= k < |services| :: Plays(startups[k]) && startups[k].cfg.successes == services[k].successes
  }

  /**
   The main loop: deploys the third-party services in order and stops at the first error,
   a deployment that is up to date not being one. `marks` are those of the services
   handled, which on an error are those before the failing one.
   */
  method DeployAll(daemon: Docker, store: RecordStore, services: seq<Service>, stamps: seq<string>, startups: seq<Startup>)
    returns (ok: bool, ghost marks: seq<Option<Mark>>)
    requires daemon.Valid() && Distinct(services) && |stamps| == |services| && Fit(services, startups)
    modifies daemon, store
    ensures daemon.Went(false) && store.faults >= old(store.faults)
    ensures |marks| <= |services| && (ok <==> |marks| == |services|)
    // Whatever is deployed later, and whether it succeeds or fails, the earlier deployments stay in place.
    ensures AllInPlace(old(daemon.containers), daemon.containers, old(daemon.deaths), daemon.deaths, store.files, services, marks)
    ensures AllCommitted(daemon.containers, store.files, services, |marks|)
    ensures ok && daemon.deaths == old(daemon.deaths) ==> AllUpAndRunning(daemon.containers, store.files, services)
    // However far it gets, containers and records of no service handled are not touched.
    ensures Untouched(old(daemon.containers), daemon.containers, old(daemon.deaths), daemon.deaths, services, |marks| + 1,
                      old(daemon.nextId))
    ensures store.files - Records(services, |marks|) == old(store.files) - Records(services, |marks|)
    // It stops at a service to be deployed; a call has failed then, or there was something against this service.
    ensures !ok ==>
              && services[|marks|].third
              && (Promising(old(daemon.containers), daemon.images, services, |marks|, stamps[|marks|], startups[|marks|]) ==>
                    daemon.faults > old(daemon.faults) || store.faults > old(store.faults))
    // Once all services are up and recorded, another pass changes nothing.
    ensures AllUpAndRunning(old(daemon.containers), old(store.files), services)
            && daemon.faults == old(daemon.faults) && store.faults == old(store.faults) && daemon.deaths == old(daemon.deaths)
            ==> ok && daemon.containers == old(daemon.containers) && store.files == old(store.files)
  {
    hide Faded, UniqueNames, Bystanders, Untouched, AllCommitted, IsOriginal, Standing, Survive, AllInPlace, MomentAt;
    hide Plays, Launches, Proves, StartedWell, Served, FailedRun, Promising, Records, Exchanged;
    ghost var w0, d0, n0, files0 := daemon.containers, daemon.deaths, daemon.nextId, store.files;
    marks := [];
    StandingAtFirst(w0, d0, files0, services, n0);
    for k := 0 to |services|
      invariant daemon.Went(false) && store.faults >= old(store.faults)
      invariant |marks| == k
      invariant Standing(w0, daemon.containers, d0, daemon.deaths, files0, store.files, services, marks, n0)
      invariant AllUpAndRunning(w0, files0, services)
                && daemon.faults == old(daemon.faults) && store.faults == old(store.faults) && daemon.deaths == d0
                ==> daemon.containers == w0 && store.files == files0
    {
      ghost var w1, d1, n1, files1 := daemon.containers, daemon.deaths, daemon.nextId, store.files;
      if services[k].third {
        var result;
        ghost var found, id, renameCall, clean;
        result, found, id, renameCall, clean := DeployService(daemon, store, services[k], stamps[k], startups[k]);
        if result.Failed? {
          StandingAtLast(w0, w1, daemon.containers, d0, d1, daemon.deaths, files0, files1, services, marks, n0, n1);
          FailedInSpite(w0, w1, d0, d1, files0, files1, daemon.images, services, marks, stamps[k], startups[k], n0);
          return false, marks;
        }
        StandingNext(w0, w1, daemon.containers, d0, d1, daemon.deaths, files0, files1, store.files, services, marks, n0, n1, id.value);
        marks := marks + [Some(Mark(id.value, daemon.containers[id.value], daemon.deaths))];
      } else {
        StandingSkip(w0, w1, d0, d1, files0, files1, services, marks, n0);
        marks := marks + [None];
      }
    }
    StandingAtTheEnd(w0, daemon.containers, d0, daemon.deaths, files0, store.files, services, marks, n0);
    ok := true;
  }

  /**
   Two passes with unchanged services: if the first succeeds, and no call fails and nobody
   dies, then the second succeeds as well and leaves everything as the first has made it.
   */
  method DeployTwice(daemon: Docker, store: RecordStore, services: seq<Service>, stamps: seq<string>, startups: seq<Startup>,
                     stamps2: seq<string>, startups2: seq<Startup>)
    returns (first: bool, second: bool, ghost between: World, ghost records: map<string, SavedRecord>)
    requires daemon.Valid() && Distinct(services) && |stamps| == |services| && Fit(services, startups)
    requires |stamps2| == |services| && Fit(services, startups2)
    modifies daemon, store
    ensures first && daemon.faults == old(daemon.faults) && store.faults == old(store.faults) && daemon.deaths == old(daemon.deaths) ==>
              second && daemon.containers == between && store.files == records
              && AllUpAndRunning(between, records, services)
  {
    hide AllInPlace, AllCommitted, AllUpAndRunning, Untouched, UniqueNames;
    ghost var marks, marks2;
    first, marks := DeployAll(daemon, store, services, stamps, startups);
    between, records := daemon.containers, store.files;
    second, marks2 := DeployAll(daemon, store, services, stamps2, startups2);
  }
}
