/**
 The rolling update of one service with rollback.
 The old container is set aside under a backup name, a new one is created and has to prove
 that it started; then either the old one is removed and the result recorded, or the new
 one is removed and the old one put back.
 */
module Deployment {
  import opened Options
  import opened Daemon
  import opened Containers
  import opened Startups
  import F = Frames

  /** A service as configured, with its environment already merged. */
  datatype Service = Service(
    name: string,
    containerName: string,
    third: bool,
    imageName: string,
    env: map<string, string>,
    args: seq<string>,
    ports: map<string, PortBinding>,
    mounts: map<string, string>,
    network: string,
    successes: set<F.Text>
  )

  /** The record kept of a deployment; blank ids are `None`. */
  datatype SavedRecord = SavedRecord(
    serviceName: string,
    containerID: Option<Id>,
    containerName: string,
    imageID: Option<ImageId>,
    args: seq<string>,
    env: map<string, string>,
    ports: map<string, PortBinding>,
    mounts: map<string, string>
  )

  predicate SameInputs(r: SavedRecord, s: Service) {
    r.args == s.args && r.env == s.env && r.ports == s.ports && r.mounts == s.mounts
  }

  function RecordOf(s: Service, id: Id, image: ImageId): SavedRecord {
    SavedRecord(s.name, Some(id), s.containerName, Some(image), s.args, s.env, s.ports, s.mounts)
  }

  /** What a new container of the service is created with; the mounts are never handed over. */
  function ConfigOf(s: Service): Config {
    Config(s.env, s.args, s.ports, map[], Some(s.network))
  }

  /** The record files. */
  class RecordStore {
    var files: map<string, SavedRecord>
    var faults: nat

    constructor ()
      ensures files == map[]
    {
      files, faults := map[], 0;
    }

    method Read(name: string) returns (ok: bool, r: Option<SavedRecord>)
      modifies this`faults
      ensures ok ==> faults == old(faults) && r == if name in files then Some(files[name]) else None
      ensures !ok ==> faults > old(faults) && r == None
    {
      ok := *;
      if !ok {
        faults := faults + 1;
        return false, None;
      }
      r := if name in files then Some(files[name]) else None;
    }

    method Save(name: string, r: SavedRecord) returns (ok: bool)
      modifies this
      ensures ok ==> faults == old(faults) && files == old(files)[name := r]
      ensures !ok ==> faults > old(faults) && files == old(files)
    {
      ok := *;
      if ok {
        files := files[name := r];
      } else {
        faults := faults + 1;
      }
    }
  }

  // ----- The worlds a deployment goes through.

  /** The name an original is set aside under. */
  function BackupName(name: string, stamp: string): string {
    name + "-" + stamp
  }

  /** The world with the original, if there is one, set aside under the backup name. */
  function Rolling(w: World, original: Option<Id>, backup: string): World
    requires original.Some? ==> original.value in w
  {
    if original.Some? then SetAside(w, original.value, Some(backup)) else w
  }

  /** The world after the steps of a recovery that took effect. */
  function Recovered(w: World, original: Id, name: string, renamed: bool, started: bool): World
    requires original in w
  {
    var w1 := if renamed then SetName(w, original, name) else w;
    if started then SetRunning(w1, original, true) else w1
  }

  /** The original bears the service's name, or nothing does. */
  ghost predicate IsOriginal(w: World, name: string, original: Option<Id>) {
    if original.Some? then Named(w, original.value, name) else NameFree(w, name)
  }

  /** The running flag observed on the original: true only if it ran, false only if it did not or had died. */
  ghost predicate ObservedRunning(w0: World, original: Option<Id>, d0: seq<Id>, d1: seq<Id>, flag: bool)
    requires original.Some? ==> original.value in w0
  {
    && (flag ==> original.Some? && w0[original.value].running)
    && (original.Some? && !flag && w0[original.value].running ==> DiedBetween(original.value, d0, d1))
  }

  lemma RecoveredRolling(w0: World, o: Id, name: string, backup: string, renamed: bool, started: bool)
    requires Named(w0, o, name)
    ensures Recovered(Rolling(w0, Some(o), backup), o, name, renamed, started)
         == w0[o := w0[o].(name := if renamed then name else backup, running := started)]
  {
  }

  /**
   The heart of the rollback: the new container is gone, the recovery took the steps
   `renamed` and `started`, and started the original just if it had been seen running.
   Then the world is the initial one, up to spontaneous deaths, exactly if the renaming
   took effect - an original left under its backup name is not restored.
   */
  lemma RestoredIffRenamed(w0: World, w2: World, d0: seq<Id>, d1: seq<Id>, d2: seq<Id>,
                           o: Id, name: string, backup: string, flag: bool, renamed: bool, started: bool)
    requires Named(w0, o, name) && backup != name
    requires d0 <= d1 <= d2 && ObservedRunning(w0, Some(o), d0, d1, flag)
    requires Faded(Recovered(Rolling(w0, Some(o), backup), o, name, renamed, started), w2, d0, d2)
    requires started == flag
    ensures Faded(w0, w2, d0, d2) <==> renamed
  {
    RecoveredRolling(w0, o, name, backup, renamed, started);
    DiedBetweenMonotone(o, d0, d1, d2);
  }

  /** The record describes exactly the container that bears the service's name, and what is configured. */
  ghost predicate Matches(r: SavedRecord, s: Service, w: World, id: Id) {
    && Named(w, id, s.containerName)
    && r.containerID == Some(id) && r.imageID == Some(w[id].image)
    && r.args == s.args && r.env == s.env && r.ports == s.ports && r.mounts == s.mounts
  }

  lemma FadedMatches(w0: World, w1: World, d0: seq<Id>, d1: seq<Id>, r: SavedRecord, s: Service, id: Id)
    requires Faded(w0, w1, d0, d1)
    ensures Matches(r, s, w0, id) <==> Matches(r, s, w1, id)
  {
  }

  lemma FadedKeepsImages(w0: World, w1: World, d0: seq<Id>, d1: seq<Id>)
    requires Faded(w0, w1, d0, d1)
    ensures forall i | i in w0 :: i in w1 && w1[i].image == w0[i].image
  {
  }

  /** A fresh handle's settings are those of the service, its mounts excepted. */
  lemma PlainConfig(c: Config, s: Service)
    requires c == Config(map[], [], map[], map[], None)
    ensures Config(c.env + s.env, if s.args != [] then s.args else c.args, c.ports + s.ports, c.mounts, Some(s.network))
         == ConfigOf(s)
  {
  }

  lemma LongerName(name: string, stamp: string)
    ensures BackupName(name, stamp) != name
  {
  }

  lemma RollingIs(w: World, found: Option<Id>, backup: string)
    requires found.Some? ==> found.value in w
    ensures found.Some? ==> Rolling(w, found, backup) == SetAside(w, found.value, Some(backup))
    ensures found.None? ==> Rolling(w, found, backup) == w
    ensures Rolling(w, found, backup).Keys == w.Keys
  {
  }

  /** Setting the original aside frees the service's name. */
  lemma RollingFreesName(w: World, found: Option<Id>, name: string, backup: string)
    requires UniqueNames(w) && IsOriginal(w, name, found) && backup != name
    ensures NameFree(Rolling(w, found, backup), name)
  {
  }

  lemma Observed(w0: World, w1: World, d0: seq<Id>, d1: seq<Id>, d2: seq<Id>, id: Id, flag: bool)
    requires Faded(w0, w1, d0, d1) && d1 <= d2 && id in w0
    requires flag == w1[id].running
    ensures ObservedRunning(w0, Some(id), d0, d2, flag)
  {
  }

  lemma NothingObserved(w: World, d0: seq<Id>, d1: seq<Id>)
    ensures ObservedRunning(w, None, d0, d1, false)
  {
  }

  lemma ObservedLater(w: World, found: Option<Id>, d0: seq<Id>, d1: seq<Id>, d2: seq<Id>, flag: bool)
    requires (found.Some? ==> found.value in w) && ObservedRunning(w, found, d0, d1, flag) && d0 <= d1 <= d2
    ensures ObservedRunning(w, found, d0, d2, flag)
  {
  }

  lemma SetRunningKeys(w: World, id: Id, running: bool)
    requires id in w
    ensures SetRunning(w, id, running).Keys == w.Keys
  {
  }

  lemma RecoveredSteps(w: World, o: Id, name: string, renamed: bool)
    requires o in w && !w[o].running
    ensures Recovered(w, o, name, renamed, false) == if renamed then SetName(w, o, name) else w
    ensures o in Recovered(w, o, name, renamed, false) && !Recovered(w, o, name, renamed, false)[o].running
    ensures Recovered(w, o, name, renamed, true) == SetRunning(Recovered(w, o, name, renamed, false), o, true)
  {
  }

  lemma FadedRecovered(w0: World, w1: World, d0: seq<Id>, d1: seq<Id>, o: Id, name: string, renamed: bool, started: bool)
    requires Faded(w0, w1, d0, d1) && o in w0
    ensures o in w1
    ensures Faded(Recovered(w0, o, name, renamed, started), Recovered(w1, o, name, renamed, started), d0, d1)
  {
  }

  /** Containers without the service's name are as they were; any further one is new and bears it. */
  ghost predicate Bystanders(w0: World, w1: World, d0: seq<Id>, d1: seq<Id>, name: string, nextId: Id) {
    && d0 <= d1
    && (forall i | i in w0 && w0[i].name != name :: i in w1 && SameOrDied(w0[i], w1[i], DiedBetween(i, d0, d1)))
    && (forall i | i in w1 :: i in w0 || (i >= nextId && w1[i].name == name))
  }

  /** `m` differs from `w0` in containers of the name and in new ones only. */
  ghost predicate TouchesOnly(w0: World, m: World, name: string, nextId: Id) {
    && (forall i | i in w0 && w0[i].name != name :: i in m && m[i] == w0[i])
    && (forall i | i in m :: i in w0 || (i >= nextId && m[i].name == name))
  }

  lemma BystandersOf(w0: World, m: World, w1: World, d0: seq<Id>, d1: seq<Id>, name: string, nextId: Id)
    requires TouchesOnly(w0, m, name, nextId) && Faded(m, w1, d0, d1)
    ensures Bystanders(w0, w1, d0, d1, name, nextId)
  {
  }

  datatype RunResult = RunOk | RunFailed(stage: Stage, purged: bool, recovered: bool)

  /** The world after the start, or the failure to start, of the new container. */
  lemma LaunchedWorld(rolling: World, w1: World, w2: World, d0: seq<Id>, d1: seq<Id>, d2: seq<Id>,
                      newId: Id, r: Record, launched: bool)
    requires newId in w1 && !r.running
    requires Faded(rolling[newId := r], w1, d0, d1)
    requires if launched then Faded(SetRunning(w1, newId, true), w2, d1, d2) else Faded(w1, w2, d1, d2)
    ensures Faded(rolling[newId := r.(running := launched)], w2, d0, d2)
  {
    hide Faded;
    if launched {
      FadedSetRunning(rolling[newId := r], w1, d0, d1, newId, true);
      PutThenRun(rolling, newId, r);
      FadedTransitive(rolling[newId := r.(running := true)], SetRunning(w1, newId, true), w2, d0, d1, d2);
    } else {
      assert r.(running := launched) == r;
      FadedTransitive(rolling[newId := r], w1, w2, d0, d1, d2);
    }
  }

  lemma CreatedBystanders(w0: World, w2: World, d0: seq<Id>, d2: seq<Id>, found: Option<Id>, name: string,
                          backup: string, newId: Id, r: Record, nextId: Id)
    requires IsOriginal(w0, name, found) && newId >= nextId && newId !in w0 && r.name == name
    requires Faded(Rolling(w0, found, backup)[newId := r], w2, d0, d2)
    ensures Bystanders(w0, w2, d0, d2, name, nextId)
  {
  }

  /** After the creation the original can be put back, and the name is the new container's alone. */
  lemma CreatedRecoverable(w0: World, w2: World, d0: seq<Id>, d2: seq<Id>, found: Option<Id>, name: string,
                           backup: string, newId: Id, r: Record)
    requires UniqueNames(w0) && IsOriginal(w0, name, found) && newId !in w0 && backup != name
    requires Faded(Rolling(w0, found, backup)[newId := r], w2, d0, d2)
    ensures found.Some? ==> found.value in w2 && !w2[found.value].running && found.value != newId
    ensures newId in w2 && NameFree(w2 - {newId}, name)
  {
  }

  /** The world after a rollback that follows the creation. */
  lemma RolledBack(w0: World, w2: World, w3: World, d0: seq<Id>, d2: seq<Id>, d3: seq<Id>, found: Option<Id>, name: string,
                   backup: string, newId: Id, r: Record, nextId: Id,
                   flag: bool, purged: bool, stopped: bool, renamed: bool, started: bool)
    requires IsOriginal(w0, name, found) && newId !in w0 && newId >= nextId && backup != name && newId in w2 && r.name == name
    requires Faded(Rolling(w0, found, backup)[newId := r], w2, d0, d2)
    requires found.Some? ==> found.value in w2 && found.value != newId
    requires d2 <= d3 && ObservedRunning(w0, found, d0, d3, flag) && (started ==> flag)
    requires purged && found.None? ==> Faded(w2 - {newId}, w3, d2, d3)
    requires purged && found.Some? ==> Faded(Recovered(w2 - {newId}, found.value, name, renamed, started), w3, d2, d3)
    requires !purged && !stopped ==> Faded(w2, w3, d2, d3)
    requires !purged && stopped ==> Faded(SetRunning(w2, newId, false), w3, d2, d3)
    ensures Bystanders(w0, w3, d0, d3, name, nextId)
    ensures purged && started == flag ==> (Faded(w0, w3, d0, d3) <==> (found.None? || renamed))
    ensures purged && found.Some? && !renamed ==> !Named(w3, found.value, name)
  {
    hide Faded, ObservedRunning, Rolling, Recovered;
    RollingIs(w0, found, backup);
    var rolling := Rolling(w0, found, backup);
    if purged {
      PutThenRemove(rolling, newId, r);
      FadedWithout(rolling[newId := r], w2, d0, d2, newId);
      if found.None? {
        FadedTransitive(rolling, w2 - {newId}, w3, d0, d2, d3);
        BystandersOf(w0, w0, w3, d0, d3, name, nextId);
      } else {
        var o := found.value;
        FadedRecovered(rolling, w2 - {newId}, d0, d2, o, name, renamed, started);
        FadedTransitive(Recovered(rolling, o, name, renamed, started),
                        Recovered(w2 - {newId}, o, name, renamed, started), w3, d0, d2, d3);
        RecoveredRolling(w0, o, name, backup, renamed, started);
        FadedNamed(Recovered(rolling, o, name, renamed, started), w3, d0, d3, name);
        BystandersOf(w0, Recovered(rolling, o, name, renamed, started), w3, d0, d3, name, nextId);
        if started == flag {
          FadedGrows(w0, w2, w3, rolling[newId := r], d0, d2, d3);
          RestoredIffRenamed(w0, w3, d0, d3, d3, o, name, backup, flag, renamed, started);
        }
      }
    } else if stopped {
      FadedSetRunning(rolling[newId := r], w2, d0, d2, newId, false);
      FadedTransitive(SetRunning(rolling[newId := r], newId, false), SetRunning(w2, newId, false), w3, d0, d2, d3);
      BystandersOf(w0, SetRunning(rolling[newId := r], newId, false), w3, d0, d3, name, nextId);
    } else {
      FadedTransitive(rolling[newId := r], w2, w3, d0, d2, d3);
      BystandersOf(w0, rolling[newId := r], w3, d0, d3, name, nextId);
    }
  }

  lemma FadedGrows(w0: World, w2: World, w3: World, m: World, d0: seq<Id>, d2: seq<Id>, d3: seq<Id>)
    requires Faded(m, w2, d0, d2) && d2 <= d3
    ensures d0 <= d3
  {
  }

  lemma PutThenRemove(w: World, id: Id, r: Record)
    requires id !in w
    ensures w[id := r] - {id} == w
  {
  }

  /** Before the creation there is an original to recover only if it was moved. */
  lemma EarlyRecoverable(w0: World, w1: World, d0: seq<Id>, d1: seq<Id>, found: Option<Id>, backup: string, stage: Stage)
    requires found.Some? ==> found.value in w0
    requires stage.Moved? ==> Faded(Rolling(w0, found, backup), w1, d0, d1)
    ensures stage.Moved? && found.Some? ==> found.value in w1 && !w1[found.value].running
  {
  }

  /**
   The world after a rollback of a run that failed before the creation; `clean` says that no
   call failed during the rollback. Without an id the rollback stops what bears the name and
   gives up; with the original's id it removes the original; after the original is set
   aside it finds nothing.
   */
  ghost predicate EarlyWorld(w0: World, w2: World, d0: seq<Id>, d2: seq<Id>, found: Option<Id>, name: string,
                             backup: string, stage: Stage, purged: bool, clean: bool)
  {
    match stage
    case Unseen =>
      && !purged
      && (clean && !NameFree(w0, name) ==> exists t :: Named(w0, t, name) && Faded(SetRunning(w0, t, false), w2, d0, d2))
      && (!clean || NameFree(w0, name) ==> Faded(w0, w2, d0, d2))
    case Seen =>
      && found.Some? && found.value in w0 && purged == clean
      && (clean ==> Faded(w0 - {found.value}, w2, d0, d2))
      && (!clean ==> Faded(w0, w2, d0, d2) || Faded(SetRunning(w0, found.value, false), w2, d0, d2))
    case Moved => !purged && (found.Some? ==> found.value in w0) && Faded(Rolling(w0, found, backup), w2, d0, d2)
    case Created => true
  }

  /** When such a rollback leaves the initial world. */
  ghost predicate EarlyRestored(w0: World, w2: World, d0: seq<Id>, d2: seq<Id>, found: Option<Id>, name: string,
                                stage: Stage, clean: bool)
  {
    match stage
    // A call failed, or what bears the name did not run, or has died.
    case Unseen => clean ==> forall t | Named(w0, t, name) && w0[t].running :: DiedBetween(t, d0, d2)
    // A call failed, and the original was not stopped before.
    case Seen =>
      && !clean && found.Some?
      && (found.value in w0 && w0[found.value].running ==>
            (found.value in w2 && w2[found.value].running) || DiedBetween(found.value, d0, d2))
    // There was no original.
    case Moved => found.None?
    case Created => true
  }

  lemma EarlyRestoredIff(w0: World, w2: World, d0: seq<Id>, d2: seq<Id>, found: Option<Id>, name: string,
                         backup: string, stage: Stage, purged: bool, clean: bool)
    requires EarlyWorld(w0, w2, d0, d2, found, name, backup, stage, purged, clean) && !stage.Created?
    requires UniqueNames(w0) && backup != name && (found.Some? ==> Named(w0, found.value, name))
    ensures Faded(w0, w2, d0, d2) <==> EarlyRestored(w0, w2, d0, d2, found, name, stage, clean)
    ensures stage.Seen? ==> (found.value !in w2 <==> clean)
  {
    if stage.Unseen? && clean && !NameFree(w0, name) {
      var t :| Named(w0, t, name) && Faded(SetRunning(w0, t, false), w2, d0, d2);
      OnlyOneNamed(w0, t, name);
      StoppedIsSameIff(w0, w2, d0, d2, t);
    } else if stage.Seen? && !clean && !Faded(w0, w2, d0, d2) {
      StoppedIsSameIff(w0, w2, d0, d2, found.value);
    }
  }

  /** Stopping a container leaves the same world just if it did not run, or has died. */
  lemma StoppedIsSameIff(w0: World, w2: World, d0: seq<Id>, d2: seq<Id>, t: Id)
    requires t in w0 && Faded(SetRunning(w0, t, false), w2, d0, d2)
    ensures t in w2 && !w2[t].running
    ensures Faded(w0, w2, d0, d2) <==> (w0[t].running ==> DiedBetween(t, d0, d2))
  {
  }

  lemma UnseenWorld(w0: World, w1: World, w2: World, d0: seq<Id>, d1: seq<Id>, d2: seq<Id>, name: string, backup: string,
                    nextId: Id, target: Option<Id>, stopped: bool, clean: bool)
    requires Faded(w0, w1, d0, d1) && (forall i | i in w0 :: i < nextId)
    requires if !clean then !stopped else if target.Some? then stopped else NameFree(w1, name)
    requires !stopped ==> Faded(w1, w2, d1, d2)
    requires stopped ==> target.Some? && Named(w1, target.value, name) && Faded(SetRunning(w1, target.value, false), w2, d1, d2)
    ensures forall found :: EarlyWorld(w0, w2, d0, d2, found, name, backup, Unseen, false, clean)
    ensures Bystanders(w0, w2, d0, d2, name, nextId)
  {
    hide Faded, SetRunning, Bystanders, NameFree;
    FadedNamed(w0, w1, d0, d1, name);
    NamedIsTaken(w0, name);
    if stopped {
      var t := target.value;
      FadedSetRunning(w0, w1, d0, d1, t, false);
      FadedTransitive(SetRunning(w0, t, false), SetRunning(w1, t, false), w2, d0, d1, d2);
      SetRunningTouchesOnly(w0, t, name, nextId);
      BystandersOf(w0, SetRunning(w0, t, false), w2, d0, d2, name, nextId);
    } else {
      FadedTransitive(w0, w1, w2, d0, d1, d2);
      BystandersOf(w0, w0, w2, d0, d2, name, nextId);
    }
  }

  lemma SetRunningTouchesOnly(w: World, id: Id, name: string, nextId: Id)
    requires Named(w, id, name)
    ensures TouchesOnly(w, SetRunning(w, id, false), name, nextId)
    ensures TouchesOnly(w, w - {id}, name, nextId)
  {
  }

  lemma SeenWorld(w0: World, w1: World, w2: World, d0: seq<Id>, d1: seq<Id>, d2: seq<Id>, o: Id, name: string, backup: string,
                  nextId: Id, half: bool, purged: bool, stopped: bool)
    requires Named(w0, o, name)
    requires if half then Faded(SetRunning(w0, o, false), w1, d0, d1) else Faded(w0, w1, d0, d1)
    requires purged ==> Faded(w1 - {o}, w2, d1, d2)
    requires !purged && !stopped ==> Faded(w1, w2, d1, d2)
    requires !purged && stopped ==> o in w1 && Faded(SetRunning(w1, o, false), w2, d1, d2)
    ensures EarlyWorld(w0, w2, d0, d2, Some(o), name, backup, Seen, purged, purged)
    ensures Bystanders(w0, w2, d0, d2, name, nextId)
  {
    hide Faded, SetRunning, Bystanders;
    var m := if half then SetRunning(w0, o, false) else w0;
    SetRunningTouchesOnly(w0, o, name, nextId);
    StopTwice(w0, o);
    if purged {
      FadedWithout(m, w1, d0, d1, o);
      FadedTransitive(w0 - {o}, w1 - {o}, w2, d0, d1, d2);
      BystandersOf(w0, w0 - {o}, w2, d0, d2, name, nextId);
    } else if stopped {
      FadedSetRunning(m, w1, d0, d1, o, false);
      FadedTransitive(SetRunning(w0, o, false), SetRunning(w1, o, false), w2, d0, d1, d2);
      BystandersOf(w0, SetRunning(w0, o, false), w2, d0, d2, name, nextId);
    } else {
      FadedTransitive(m, w1, w2, d0, d1, d2);
      BystandersOf(w0, m, w2, d0, d2, name, nextId);
    }
  }

  lemma StopTwice(w: World, o: Id)
    requires o in w
    ensures o in SetRunning(w, o, false)
    ensures SetRunning(SetRunning(w, o, false), o, false) == SetRunning(w, o, false)
    ensures SetRunning(w, o, false) - {o} == w - {o}
    ensures TouchesOnly(w, w, w[o].name, 0)
  {
  }

  lemma MovedWorld(w0: World, w1: World, w2: World, d0: seq<Id>, d1: seq<Id>, d2: seq<Id>, found: Option<Id>, name: string,
                   backup: string, nextId: Id, target: Option<Id>, stopped: bool)
    requires UniqueNames(w0) && IsOriginal(w0, name, found) && backup != name
    requires Faded(Rolling(w0, found, backup), w1, d0, d1)
    requires !stopped ==> Faded(w1, w2, d1, d2)
    requires stopped ==> target.Some? && Named(w1, target.value, name)
    ensures forall clean :: EarlyWorld(w0, w2, d0, d2, found, name, backup, Moved, false, clean)
    ensures Bystanders(w0, w2, d0, d2, name, nextId)
  {
    hide Faded, Bystanders;
    RollingFreesName(w0, found, name, backup);
    FadedNamed(Rolling(w0, found, backup), w1, d0, d1, name);
    FadedTransitive(Rolling(w0, found, backup), w1, w2, d0, d1, d2);
    BystandersOf(w0, Rolling(w0, found, backup), w2, d0, d2, name, nextId);
  }

  /** The world after a rollback that follows an attempt without a creation. */
  lemma EarlyRolledBack(w0: World, w1: World, w2: World, d0: seq<Id>, d1: seq<Id>, d2: seq<Id>, found: Option<Id>, name: string,
                        backup: string, nextId: Id, stage: Stage, half: bool, purged: bool, target: Option<Id>, stopped: bool, clean: bool)
    requires UniqueNames(w0) && backup != name && (forall i | i in w0 :: i < nextId) && !stage.Created?
    requires found.Some? ==> Named(w0, found.value, name)
    requires stage.Unseen? ==> Faded(w0, w1, d0, d1)
    requires stage.Seen? ==> found.Some? && Faded(if half then SetRunning(w0, found.value, false) else w0, w1, d0, d1)
    requires stage.Moved? ==> IsOriginal(w0, name, found) && Faded(Rolling(w0, found, backup), w1, d0, d1)
    requires stage.Unseen? ==> if !clean then !stopped else if target.Some? then stopped else NameFree(w1, name)
    requires stage.Seen? ==> purged == clean
    requires purged ==> stage.Seen? && Faded(w1 - {found.value}, w2, d1, d2)
    requires !purged && !stopped ==> Faded(w1, w2, d1, d2)
    requires !purged && stopped ==>
               && target.Some? && target.value in w1 && Faded(SetRunning(w1, target.value, false), w2, d1, d2)
               && (if stage.Seen? then target == found else Named(w1, target.value, name))
    ensures EarlyWorld(w0, w2, d0, d2, found, name, backup, stage, purged, clean)
    ensures Bystanders(w0, w2, d0, d2, name, nextId)
  {
    hide Faded, Rolling, SetRunning, Bystanders, EarlyWorld;
    match stage {
      case Unseen =>
        UnseenWorld(w0, w1, w2, d0, d1, d2, name, backup, nextId, target, stopped, clean);
      case Seen =>
        SeenWorld(w0, w1, w2, d0, d1, d2, found.value, name, backup, nextId, half, purged, stopped);
      case Moved =>
        MovedWorld(w0, w1, w2, d0, d1, d2, found, name, backup, nextId, target, stopped);
    }
  }

  /**
   The world after a failed run and its rollback. After the creation: the initial one if the
   rollback was clean, and if the rollback reports success, exactly if the call that
   renames the original back did not fail. Before it: the initial one exactly on the
   condition above.
   */
  ghost predicate FailedRun(w0: World, w2: World, d0: seq<Id>, d2: seq<Id>, found: Option<Id>, name: string,
                            backup: string, run: RunResult, clean: bool, renameFails: bool)
    requires run.RunFailed?
  {
    if run.stage.Created? then
      && (clean ==> run.purged && run.recovered && Faded(w0, w2, d0, d2))
      && (run.purged && run.recovered ==>
            && (Faded(w0, w2, d0, d2) <==> found.None? || !renameFails)
            && (found.Some? && renameFails ==> !Named(w2, found.value, name)))
    else
      && run.recovered == run.purged
      && EarlyWorld(w0, w2, d0, d2, found, name, backup, run.stage, run.purged, clean)
      && (Faded(w0, w2, d0, d2) <==> EarlyRestored(w0, w2, d0, d2, found, name, run.stage, clean))
  }

  /** After the creation, in terms of the steps the rollback took. */
  lemma FailedAfterCreation(w0: World, w2: World, d0: seq<Id>, d2: seq<Id>, found: Option<Id>, name: string, backup: string,
                            run: RunResult, clean: bool, renameFails: bool, flag: bool, renamed: bool, started: bool)
    requires run.RunFailed? && run.stage.Created?
    requires run.purged && started == flag ==> (Faded(w0, w2, d0, d2) <==> found.None? || renamed)
    requires run.purged && found.Some? && !renamed ==> !Named(w2, found.value, name)
    requires run.purged && found.Some? ==> renamed == !renameFails && run.recovered == if flag then started else renamed
    requires clean ==> run.purged && run.recovered && (found.Some? ==> renamed)
    requires (started ==> flag) && (found.None? ==> !flag)
    ensures FailedRun(w0, w2, d0, d2, found, name, backup, run, clean, renameFails)
  {
  }

  /** Before it. */
  lemma FailedBeforeCreation(w0: World, w2: World, d0: seq<Id>, d2: seq<Id>, found: Option<Id>, name: string, backup: string,
                             run: RunResult, clean: bool, renameFails: bool)
    requires run.RunFailed? && !run.stage.Created? && run.recovered == run.purged
    requires UniqueNames(w0) && backup != name && (found.Some? ==> Named(w0, found.value, name))
    requires EarlyWorld(w0, w2, d0, d2, found, name, backup, run.stage, run.purged, clean)
    ensures FailedRun(w0, w2, d0, d2, found, name, backup, run, clean, renameFails)
  {
    EarlyRestoredIff(w0, w2, d0, d2, found, name, backup, run.stage, run.purged, clean);
  }

  /**
   What an attempt leaves: `cid` is the id its handle has, `half` says that an original that
   could not be moved is stopped, `flag` is the running flag taken from the original.
   */
  ghost predicate Attempted(w0: World, w1: World, d0: seq<Id>, d1: seq<Id>, found: Option<Id>, name: string, backup: string,
                            cid: Option<Id>, r: Record, nextId: Id, stage: Stage, half: bool, flag: bool)
  {
    && (found.Some? ==> Named(w0, found.value, name))
    && (stage.Moved? || stage.Created? ==> IsOriginal(w0, name, found) && ObservedRunning(w0, found, d0, d1, flag))
    && match stage
       case Unseen => cid.None? && Faded(w0, w1, d0, d1)
       case Seen => found.Some? && cid == found && Faded(if half then SetRunning(w0, found.value, false) else w0, w1, d0, d1)
       case Moved => cid.None? && Faded(Rolling(w0, found, backup), w1, d0, d1)
       case Created =>
         cid.Some? && cid.value !in w0 && cid.value >= nextId && Faded(Rolling(w0, found, backup)[cid.value := r], w1, d0, d1)
  }

  /** The world of a successful run. */
  lemma ConfirmedWorld(w0: World, w1: World, d0: seq<Id>, d1: seq<Id>, found: Option<Id>, name: string, backup: string,
                       cid: Option<Id>, r: Record, nextId: Id, half: bool, flag: bool)
    requires Attempted(w0, w1, d0, d1, found, name, backup, cid, r, nextId, Created, half, flag) && r.name == name
    ensures cid.Some? && cid.value >= nextId && IsOriginal(w0, name, found)
    ensures Faded(Rolling(w0, found, backup)[cid.value := r], w1, d0, d1)
    ensures Bystanders(w0, w1, d0, d1, name, nextId)
    ensures Named(w1, cid.value, name)
  {
    hide Faded, Rolling, Bystanders;
    CreatedBystanders(w0, w1, d0, d1, found, name, backup, cid.value, r, nextId);
    FadedNamed(Rolling(w0, found, backup)[cid.value := r], w1, d0, d1, name);
  }

  /** What a rollback finds: an original to recover only if it was moved, and the name the new container's alone. */
  lemma AttemptedWorld(w0: World, w1: World, d0: seq<Id>, d1: seq<Id>, found: Option<Id>, name: string, backup: string,
                       cid: Option<Id>, r: Record, nextId: Id, stage: Stage, half: bool, flag: bool)
    requires UniqueNames(w0) && backup != name
    requires Attempted(w0, w1, d0, d1, found, name, backup, cid, r, nextId, stage, half, flag)
    ensures d0 <= d1
    ensures stage.Seen? && !half && d0 == d1 ==> w0 == w1
    ensures (stage.Moved? || stage.Created?) && found.Some? ==> found.value in w1 && !w1[found.value].running
    ensures stage.Created? ==>
              cid.value in w1 && NameFree(w1 - {cid.value}, name) && (found.Some? ==> found.value != cid.value)
  {
    hide Rolling, SetRunning;
    if stage.Created? {
      hide Faded;
      CreatedRecoverable(w0, w1, d0, d1, found, name, backup, cid.value, r);
    } else {
      EarlyRecoverable(w0, w1, d0, d1, found, backup, stage);
      if stage.Seen? && !half {
        FadedStands(w0, w1, d0, d1);
      }
    }
  }

  /** The world after an attempt that failed, and its rollback. */
  lemma UndoneWorld(w0: World, w1: World, w2: World, d0: seq<Id>, d1: seq<Id>, d2: seq<Id>, found: Option<Id>, name: string,
                    backup: string, cid: Option<Id>, r: Record, nextId: Id, run: RunResult, half: bool, flag: bool,
                    target: Option<Id>, stopped: bool, renamed: bool, started: bool, clean: bool, renameFails: bool)
    requires UniqueNames(w0) && backup != name && (forall i | i in w0 :: i < nextId) && r.name == name
    requires run.RunFailed? && d1 <= d2
    requires Attempted(w0, w1, d0, d1, found, name, backup, cid, r, nextId, run.stage, half, flag)
    // What the rollback has done.
    requires run.purged ==> cid.Some?
    requires run.purged && (found.None? || run.stage.Seen?) ==> run.recovered && Faded(w1 - {cid.value}, w2, d1, d2)
    requires run.purged && run.stage.Created? && found.Some? ==>
               && Faded(Recovered(w1 - {cid.value}, found.value, name, renamed, started), w2, d1, d2)
               && run.recovered == if flag then started else renamed
    requires !run.purged && !stopped ==> Faded(w1, w2, d1, d2)
    requires !run.purged && stopped ==>
               && target.Some? && target.value in w1 && Faded(SetRunning(w1, target.value, false), w2, d1, d2)
               && (if cid.Some? then target == cid else Named(w1, target.value, name))
    requires !run.purged ==> !run.recovered && !renamed
    requires cid.None? ==> if !clean then !stopped else if target.Some? then stopped else NameFree(w1, name)
    requires started ==> run.purged && flag
    requires cid.Some? && clean ==> run.purged
    requires run.stage.Seen? && run.purged ==> clean
    requires run.stage.Created? && clean ==> run.recovered && (found.Some? ==> renamed)
    requires run.stage.Created? && run.purged && found.Some? ==> renamed == !renameFails
    ensures FailedRun(w0, w2, d0, d2, found, name, backup, run, clean, renameFails)
    ensures Bystanders(w0, w2, d0, d2, name, nextId)
  {
    hide Faded, UniqueNames, Rolling, Recovered, SetRunning, ObservedRunning, Bystanders, EarlyWorld, FailedRun, NameFree;
    AttemptedWorld(w0, w1, d0, d1, found, name, backup, cid, r, nextId, run.stage, half, flag);
    if run.stage.Created? {
      ObservedLater(w0, found, d0, d1, d2, flag);
      RolledBack(w0, w1, w2, d0, d1, d2, found, name, backup, cid.value, r, nextId,
                 flag, run.purged, stopped, renamed, started);
      FailedAfterCreation(w0, w2, d0, d2, found, name, backup, run, clean, renameFails, flag, renamed, started);
    } else {
      EarlyRolledBack(w0, w1, w2, d0, d1, d2, found, name, backup, nextId, run.stage, half,
                      run.purged, target, stopped, clean);
      FailedBeforeCreation(w0, w2, d0, d2, found, name, backup, run, clean, renameFails);
    }
  }

  /** Deaths before the run do not matter. */
  lemma FailedRunEarlier(w0: World, w1: World, w2: World, d0: seq<Id>, d1: seq<Id>, d2: seq<Id>, found: Option<Id>,
                         name: string, backup: string, run: RunResult, clean: bool, renameFails: bool)
    requires Faded(w0, w1, d0, d1) && d1 <= d2 && UniqueNames(w0) && backup != name
    requires found.Some? ==> Named(w1, found.value, name)
    requires run.RunFailed? && FailedRun(w1, w2, d1, d2, found, name, backup, run, clean, renameFails)
    ensures FailedRun(w0, w2, d0, d2, found, name, backup, run, clean, renameFails)
  {
    hide Faded, EarlyWorld, EarlyRestored, UniqueNames;
    FadedNamed(w0, w1, d0, d1, name);
    if run.stage.Created? {
      FadedBackwards(w0, w1, w2, d0, d1, d2);
      NotRestored(w0, w1, w2, d0, d1, d2, found, name);
    } else {
      EarlyWorldEarlier(w0, w1, w2, d0, d1, d2, found, name, backup, run.stage, run.purged, clean);
      EarlyRestoredIff(w0, w2, d0, d2, found, name, backup, run.stage, run.purged, clean);
    }
  }

  lemma EarlyWorldEarlier(w0: World, w1: World, w2: World, d0: seq<Id>, d1: seq<Id>, d2: seq<Id>, found: Option<Id>,
                          name: string, backup: string, stage: Stage, purged: bool, clean: bool)
    requires Faded(w0, w1, d0, d1) && EarlyWorld(w1, w2, d1, d2, found, name, backup, stage, purged, clean)
    ensures EarlyWorld(w0, w2, d0, d2, found, name, backup, stage, purged, clean)
  {
    hide Faded, NameFree, Rolling, SetRunning;
    FadedNamed(w0, w1, d0, d1, name);
    match stage {
      case Unseen =>
        if clean && !NameFree(w0, name) {
          var t :| Named(w1, t, name) && Faded(SetRunning(w1, t, false), w2, d1, d2);
          FadedSetRunning(w0, w1, d0, d1, t, false);
          FadedTransitive(SetRunning(w0, t, false), SetRunning(w1, t, false), w2, d0, d1, d2);
        } else {
          FadedTransitive(w0, w1, w2, d0, d1, d2);
        }
      case Seen =>
        var o := found.value;
        if clean {
          FadedWithout(w0, w1, d0, d1, o);
          FadedTransitive(w0 - {o}, w1 - {o}, w2, d0, d1, d2);
        } else if Faded(w1, w2, d1, d2) {
          FadedTransitive(w0, w1, w2, d0, d1, d2);
        } else {
          FadedSetRunning(w0, w1, d0, d1, o, false);
          FadedTransitive(SetRunning(w0, o, false), SetRunning(w1, o, false), w2, d0, d1, d2);
        }
      case Moved =>
        RollingIs(w0, found, backup);
        RollingIs(w1, found, backup);
        if found.Some? {
          FadedSetAside(w0, w1, d0, d1, found.value, Some(backup));
        }
        FadedTransitive(Rolling(w0, found, backup), Rolling(w1, found, backup), w2, d0, d1, d2);
      case Created =>
    }
  }

  datatype DeployResult = Deployed | NotChanged | Failed(failure: Failure)

  datatype Failure = RecordUnreadable | CheckFailed | ImageFailed | RunFailure(run: RunResult) | PurgeFailed | SaveFailed

  function Without(w: World, found: Option<Id>): World {
    if found.Some? then w - {found.value} else w
  }

  /** The new container stands in the place of the original. */
  ghost predicate TookOver(w0: World, w1: World, d0: seq<Id>, d1: seq<Id>, found: Option<Id>, newId: Id, r: Record) {
    && Faded(Without(w0, found)[newId := r.(running := true)], w1, d0, d1)
    && w1.Keys == Without(w0, found).Keys + {newId}
    && newId in w1 && w1[newId].name == r.name && w1[newId].image == r.image && w1[newId].config == r.config
  }

  /** Deaths before a stretch are nothing its bystanders would not see. */
  lemma BystandersLater(w0: World, w1: World, w2: World, d0: seq<Id>, d1: seq<Id>, d2: seq<Id>, name: string, nextId: Id)
    requires Faded(w0, w1, d0, d1)
    requires exists n | n >= nextId :: Bystanders(w1, w2, d1, d2, name, n)
    ensures Bystanders(w0, w2, d0, d2, name, nextId)
  {
  }

  /** Deaths before a stretch do not matter to whether the stretch restored the world. */
  lemma FadedBackwards(w0: World, w1: World, w2: World, d0: seq<Id>, d1: seq<Id>, d2: seq<Id>)
    requires Faded(w0, w1, d0, d1) && d1 <= d2
    ensures Faded(w1, w2, d1, d2) ==> Faded(w0, w2, d0, d2)
  {
  }

  /** An original left under another name is not restored. */
  lemma NotRestored(w0: World, w1: World, w2: World, d0: seq<Id>, d1: seq<Id>, d2: seq<Id>, found: Option<Id>, name: string)
    requires Faded(w0, w1, d0, d1)
    requires found.Some? ==> Named(w1, found.value, name)
    ensures found.Some? && !Named(w2, found.value, name) ==> !Faded(w0, w2, d0, d2)
  {
  }

  /** After a successful run the original is there, next to the new container. */
  lemma RunWorld(w0: World, w2: World, d0: seq<Id>, d2: seq<Id>, found: Option<Id>, name: string,
                 backup: string, newId: Id, r: Record)
    requires IsOriginal(w0, name, found) && newId !in w0
    requires Faded(Rolling(w0, found, backup)[newId := r], w2, d0, d2)
    ensures found.Some? ==> found.value in w2 && found.value != newId
  {
  }

  /** Deaths before a deployment do not matter to whether its container took over. */
  lemma TookOverEarlier(w0: World, w1: World, w2: World, d0: seq<Id>, d1: seq<Id>, d2: seq<Id>, found: Option<Id>,
                        name: string, newId: Id, r: Record)
    requires Faded(w0, w1, d0, d1) && IsOriginal(w1, name, found) && TookOver(w1, w2, d1, d2, found, newId, r)
    ensures IsOriginal(w0, name, found) && TookOver(w0, w2, d0, d2, found, newId, r)
  {
    FadedNamed(w0, w1, d0, d1, name);
    var r1 := r.(running := true);
    if found.Some? {
      FadedWithout(w0, w1, d0, d1, found.value);
    }
    FadedPut(Without(w0, found), Without(w1, found), d0, d1, newId, r1);
    FadedTransitive(Without(w0, found)[newId := r1], Without(w1, found)[newId := r1], w2, d0, d1, d2);
  }

  /** Deaths before a deployment do not matter to whether its original was set aside. */
  lemma SetAsideEarlier(w0: World, w1: World, w2: World, d0: seq<Id>, d1: seq<Id>, d2: seq<Id>, found: Option<Id>,
                        name: string, backup: string, newId: Id, r: Record)
    requires Faded(w0, w1, d0, d1) && IsOriginal(w1, name, found)
    requires Faded(Rolling(w1, found, backup)[newId := r], w2, d1, d2)
    ensures IsOriginal(w0, name, found)
    ensures Faded(Rolling(w0, found, backup)[newId := r], w2, d0, d2)
  {
    hide Faded;
    FadedNamed(w0, w1, d0, d1, name);
    if found.Some? {
      FadedSetAside(w0, w1, d0, d1, found.value, Some(backup));
    }
    FadedPut(Rolling(w0, found, backup), Rolling(w1, found, backup), d0, d1, newId, r);
    FadedTransitive(Rolling(w0, found, backup)[newId := r], Rolling(w1, found, backup)[newId := r], w2, d0, d1, d2);
  }

  /** The world after the purge of the original, or the failure to purge it. */
  lemma PurgedWorld(w0: World, w2: World, w3: World, d0: seq<Id>, d2: seq<Id>, d3: seq<Id>, found: Option<Id>, name: string,
                    backup: string, newId: Id, r: Record, nextId: Id, ok: bool, stopped: bool)
    requires IsOriginal(w0, name, found) && newId !in w0 && newId >= nextId && r.name == name
    requires Faded(Rolling(w0, found, backup)[newId := r], w2, d0, d2)
    requires found.None? ==> ok && Faded(w2, w3, d2, d3)
    requires found.Some? ==> found.value in w2
    requires found.Some? && ok ==> Faded(w2 - {found.value}, w3, d2, d3)
    requires found.Some? && !ok && !stopped ==> Faded(w2, w3, d2, d3)
    requires found.Some? && !ok && stopped ==> Faded(SetRunning(w2, found.value, false), w3, d2, d3)
    ensures ok ==> Faded(Without(w0, found)[newId := r], w3, d0, d3)
    ensures !ok ==> found.Some? && Faded(Rolling(w0, found, backup)[newId := r], w3, d0, d3)
    ensures newId in w3
    ensures Bystanders(w0, w3, d0, d3, name, nextId)
  {
    hide Faded, Bystanders, Rolling;
    RollingIs(w0, found, backup);
    var m := Rolling(w0, found, backup)[newId := r];
    FadedKeepsNames(m, w2, d0, d2);
    if found.None? || (!ok && !stopped) {
      FadedTransitive(m, w2, w3, d0, d2, d3);
      FadedKeepsNames(m, w3, d0, d3);
      RollingTouchesOnly(w0, found, name, backup, newId, r, nextId);
      BystandersOf(w0, m, w3, d0, d3, name, nextId);
    } else if ok {
      var o := found.value;
      FadedWithout(m, w2, d0, d2, o);
      RollingTouchesOnly(w0, found, name, backup, newId, r, nextId);
      FadedTransitive(m - {o}, w2 - {o}, w3, d0, d2, d3);
      FadedKeepsNames(m - {o}, w3, d0, d3);
      BystandersOf(w0, m - {o}, w3, d0, d3, name, nextId);
    } else {
      // The original has been stopped before.
      var o := found.value;
      FadedSetRunning(m, w2, d0, d2, o, false);
      RollingTouchesOnly(w0, found, name, backup, newId, r, nextId);
      FadedTransitive(m, SetRunning(w2, o, false), w3, d0, d2, d3);
      FadedKeepsNames(m, w3, d0, d3);
      BystandersOf(w0, m, w3, d0, d3, name, nextId);
    }
  }

  lemma RollingTouchesOnly(w: World, found: Option<Id>, name: string, backup: string, newId: Id, r: Record, nextId: Id)
    requires IsOriginal(w, name, found) && newId !in w && newId >= nextId && r.name == name
    ensures var m := Rolling(w, found, backup)[newId := r];
            && TouchesOnly(w, m, name, nextId)
            && (found.Some? ==>
                  && found.value in m
                  && m - {found.value} == Without(w, found)[newId := r]
                  && TouchesOnly(w, m - {found.value}, name, nextId)
                  && SetRunning(m, found.value, false) == m)
  {
  }

  lemma TookOverWorld(w0: World, w1: World, d0: seq<Id>, d1: seq<Id>, found: Option<Id>, name: string, newId: Id, r: Record, nextId: Id)
    requires Faded(Without(w0, found)[newId := r.(running := true)], w1, d0, d1)
    requires IsOriginal(w0, name, found) && newId >= nextId
    requires newId !in w0 && r.name == name
    ensures TookOver(w0, w1, d0, d1, found, newId, r)
    ensures newId in w1 && w1[newId].name == r.name
    ensures Bystanders(w0, w1, d0, d1, name, nextId)
  {
  }

  datatype Check = Redeploy | UpToDate | CheckError

  /** How far a run came before it failed. */
  datatype Stage = Unseen | Seen | Moved | Created

  /** The calls it takes to resolve a handle's id. */
  function ListCalls(id: Option<Id>): nat {
    if id.Some? then 0 else 1
  }

  /** The calls it takes to set the original aside: list, inspect, inspect, stop if it runs, rename. */
  function AsideCalls(w: World, id: Option<Id>, original: Option<Id>): nat
    requires original.Some? ==> original.value in w
  {
    ListCalls(id) + if original.Some? then 1 + (StopCalls(w, original.value) + 1) else 0
  }

  lemma AsideSplit(script: seq<Moment>, n: nat, w: World, id: Option<Id>, original: Option<Id>)
    requires original.Some? ==> original.value in w
    ensures original.None? ==> AsideCalls(w, id, original) == ListCalls(id)
    ensures original.Some? ==>
              AsideCalls(w, id, original) == ListCalls(id) + 1 + (StopCalls(w, original.value) + 1)
    ensures Calm(script, n, n + AsideCalls(w, id, original)) ==>
              && Calm(script, n, n + ListCalls(id))
              && (original.Some? ==>
                    && MomentAt(script, n + ListCalls(id)) == CALM
                    && Calm(script, n + ListCalls(id) + 1, n + ListCalls(id) + 1 + (StopCalls(w, original.value) + 1)))
  {
  }

  /** The world once the original is stopped and renamed. */
  lemma AsideWorld(w0: World, w2: World, w3: World, d0: seq<Id>, d2: seq<Id>, d3: seq<Id>, o: Id, backup: string, flag: bool)
    requires Faded(w0, w2, d0, d2) && o in w0 && o in w2 && flag == w2[o].running
    requires Faded(SetAside(w2, o, Some(backup)), w3, d2, d3)
    ensures Faded(Rolling(w0, Some(o), backup), w3, d0, d3)
    ensures ObservedRunning(w0, Some(o), d0, d3, flag)
  {
    hide Faded, SetAside;
    FadedSetAside(w0, w2, d0, d2, o, Some(backup));
    FadedTransitive(SetAside(w0, o, Some(backup)), SetAside(w2, o, Some(backup)), w3, d0, d2, d3);
    LaterThan(SetAside(w2, o, Some(backup)), w3, d2, d3);
    Observed(w0, w2, d0, d2, d3, o, flag);
  }

  lemma LaterThan(w0: World, w1: World, d0: seq<Id>, d1: seq<Id>)
    requires Faded(w0, w1, d0, d1)
    ensures d0 <= d1
  {
  }

  /** The world if that fails, the container being stopped already or not. */
  lemma HalfAsideWorld(w0: World, w2: World, w3: World, d0: seq<Id>, d2: seq<Id>, d3: seq<Id>, o: Id, half: bool)
    requires Faded(w0, w2, d0, d2) && o in w0 && o in w2
    requires Faded(if half then SetRunning(w2, o, false) else w2, w3, d2, d3)
    ensures Faded(if half then SetRunning(w0, o, false) else w0, w3, d0, d3)
  {
    hide Faded, SetRunning;
    if half {
      FadedSetRunning(w0, w2, d0, d2, o, false);
      FadedTransitive(SetRunning(w0, o, false), SetRunning(w2, o, false), w3, d0, d2, d3);
    } else {
      FadedTransitive(w0, w2, w3, d0, d2, d3);
    }
  }

  class Deployment {
    const daemon: Docker
    const store: RecordStore
    const service: Service
    const container: Container
    var record: Option<SavedRecord>
    var original: Container?

    constructor (daemon: Docker, store: RecordStore, service: Service, record: Option<SavedRecord>)
      requires daemon.Valid()
      ensures this.daemon == daemon && this.store == store && this.service == service && this.record == record
      ensures fresh(container) && container.daemon == daemon && container.name == service.containerName
      ensures container.id == None && container.image == None && container.config == Config(map[], [], map[], map[], None)
      ensures original == null
    {
      this.daemon := daemon;
      this.store := store;
      this.service := service;
      this.record := record;
      this.container := new Container(daemon, service.containerName, None);
      this.original := null;
    }

    ghost predicate Ready()
      reads this, container, daemon
    {
      && container.daemon == daemon && daemon.Valid() && container.Known()
      && container.name == service.containerName
      && (container.id.Some? ==> Named(daemon.containers, container.id.value, service.containerName))
    }

    // ----- The outcomes a deployment can have, of the present state against an earlier one.

    /** The new container has proved its start and stands in the original's place. */
    twostate predicate TakenOver(new found: Option<Id>, startup: Startup)
      requires Plays(startup)
      reads this, container, daemon
    {
      && container.id.Some? && container.id.value >= old(daemon.nextId) && service.imageName in daemon.images
      && IsOriginal(old(daemon.containers), service.containerName, found)
      && TookOver(old(daemon.containers), daemon.containers, old(daemon.deaths), daemon.deaths, found, container.id.value, NewRecord())
      && Launches(startup) && Proves(startup) && StartedWell(startup, service.successes)
    }

    /** The new container runs, and the original, if there was one, is still there, stopped and under its backup name. */
    twostate predicate BothThere(new found: Option<Id>, stamp: string)
      reads this, container, daemon
    {
      && container.id.Some? && container.id.value >= old(daemon.nextId) && service.imageName in daemon.images
      && IsOriginal(old(daemon.containers), service.containerName, found)
      && daemon.Became(Rolling(old(daemon.containers), found, Backup(stamp))[container.id.value := NewRecord().(running := true)])
    }

    /** The record file of the service, and no other, has been replaced, and describes the new container. */
    twostate predicate Recorded()
      reads this, container, daemon, store
    {
      && container.id.Some? && container.id.value in daemon.containers
      && store.files == old(store.files)[service.name :=
           SavedRecord(service.name, container.id, service.containerName, Some(daemon.containers[container.id.value].image),
                       service.args, service.env, service.ports, service.mounts)]
      && Matches(store.files[service.name], service, daemon.containers, container.id.value)
    }

    /** No file has been replaced; the record in memory, `before` so far, has been if the writing failed. */
    twostate predicate Unrecorded(before: Option<SavedRecord>)
      reads this, container, daemon, store
    {
      && container.id.Some? && container.id.value in daemon.containers
      && store.files == old(store.files)
      && record == if store.faults > old(store.faults)
                   then Some(RecordOf(service, container.id.value, daemon.containers[container.id.value].image))
                   else before
    }

    /** The run has failed and been rolled back, `renameCall` being the call that renames the original back. */
    twostate predicate RolledBackFrom(run: RunResult, new found: Option<Id>, stamp: string, renameCall: nat, clean: bool)
      reads this, daemon
    {
      && run.RunFailed?
      && FailedRun(old(daemon.containers), daemon.containers, old(daemon.deaths), daemon.deaths, found, service.containerName,
                   Backup(stamp), run, clean, MomentAt(daemon.script, renameCall).fails)
      && (run.stage.Created? && run.purged && found.Some? ==> old(daemon.next) <= renameCall < daemon.next)
    }

    /** The last two comparisons of the check: the image, then whether the container runs. */
    method RunsImage(image: ImageId) returns (ok: bool, same: bool)
      requires Ready() && container.id.Some?
      modifies container`id, daemon
      ensures Ready() && daemon.Went(ok) && daemon.OnlyDeaths() && container.id == old(container.id)
      ensures ok ==> same == (daemon.containers[container.id.value].image == image
                              && daemon.containers[container.id.value].running)
      ensures !ok ==> daemon.faults > old(daemon.faults)
    {
      hide Faded, UniqueNames;
      ghost var w0, d0 := daemon.containers, daemon.deaths;
      var current;
      ok, current := container.GetImageID();
      ghost var w1, d1 := daemon.containers, daemon.deaths;
      FadedNamed(w0, w1, d0, d1, service.containerName);
      if !ok || current != image {
        return ok, false;
      }
      ok, same := container.IsRunning();
      FadedTransitive(w0, w1, daemon.containers, d0, d1, daemon.deaths);
      FadedNamed(w1, daemon.containers, d1, daemon.deaths, service.containerName);
      FadedKeepsImages(w1, daemon.containers, d1, daemon.deaths);
    }

    /** Is what runs what the record says, and is that what is configured? */
    method CheckExists() returns (check: Check)
      requires Ready()
      modifies this`record, container`id, daemon
      ensures Ready() && daemon.Went(!check.CheckError?) && daemon.OnlyDeaths()
      ensures old(container.id).Some? ==> container.id == old(container.id)
      ensures check.UpToDate? ==>
                old(record).Some? && container.id.Some?
                && Matches(old(record).value, service, daemon.containers, container.id.value)
                && daemon.containers[container.id.value].running
      ensures check.Redeploy? ==> record == None
      ensures check.CheckError? ==> daemon.faults > old(daemon.faults)
      // A recorded, unchanged and running container is recognized unless a call fails or it dies.
      ensures forall i :: old(record).Some? && Matches(old(record).value, service, old(daemon.containers), i)
                          && old(daemon.containers)[i].running && !check.CheckError?
                          && !DiedBetween(i, old(daemon.deaths), daemon.deaths)
                          ==> check.UpToDate?
    {
      hide Faded, UniqueNames, NameFree, DiedBetween;
      ghost var w0, d0 := daemon.containers, daemon.deaths;
      FadedReflexive(w0, d0);
      if record.None? {
        return Redeploy;
      }
      var r := record.value;
      if SameInputs(r, service) && r.imageID.Some? && r.containerID.Some? {
        var ok, there := container.Exists();
        ghost var w1, d1 := daemon.containers, daemon.deaths;
        FadedNamed(w0, w1, d0, d1, service.containerName);
        if !ok {
          return CheckError;
        }
        if there {
          var id;
          ok, id := container.EnsureID();
          ghost var w2, d2 := daemon.containers, daemon.deaths;
          FadedTransitive(w0, w1, w2, d0, d1, d2);
          FadedNamed(w0, w2, d0, d2, service.containerName);
          if id.value == r.containerID.value {
            var same;
            ok, same := RunsImage(r.imageID.value);
            FadedTransitive(w0, w2, daemon.containers, d0, d2, daemon.deaths);
            FadedMatches(w0, daemon.containers, d0, daemon.deaths, r, service, id.value);
            StillRunning(w0, daemon.containers, d0, daemon.deaths, id.value);
            if !ok {
              return CheckError;
            }
            if same {
              return UpToDate;
            }
          }
          OnlyOneNamed(w0, id.value, service.containerName);
        }
      }
      record := None;
      check := Redeploy;
    }

    /** Resolves the image; pulling and listing images happens elsewhere, and `ready` says whether it works. */
    method EnsureImage(ready: bool) returns (ok: bool)
      modifies container`image
      ensures ok == ready
      ensures container.image == if ready then Some(service.imageName) else old(container.image)
    {
      ok := ready;
      if ok {
        container.image := Some(service.imageName);
      }
    }

    /** Hands the service's settings to the new container's handle. */
    method ApplySettings()
      requires container.config == Config(map[], [], map[], map[], None)
      modifies container`config
      ensures container.config == ConfigOf(service)
    {
      PlainConfig(container.config, service);
      container.config := Config(container.config.env + service.env,
                                 if service.args != [] then service.args else container.config.args,
                                 container.config.ports + service.ports, container.config.mounts, Some(service.network));
    }

    /** Looks for the original, and asks whether it runs if there is one. */
    method FindOriginal() returns (ok: bool, wasRunning: bool)
      requires Ready()
      modifies container`id, daemon
      ensures daemon.Went(ok) && daemon.OnlyDeaths() && container.Known()
      ensures old(container.id).Some? ==> container.id == old(container.id)
      ensures container.id.Some? ==> Named(old(daemon.containers), container.id.value, service.containerName)
      ensures ok && container.id.None? ==> NameFree(old(daemon.containers), service.containerName)
      ensures ok ==> wasRunning == (container.id.Some? && daemon.containers[container.id.value].running)
      ensures !ok ==> daemon.faults > old(daemon.faults)
      ensures var calls := ListCalls(old(container.id));
              daemon.CalmFor(calls) ==>
                && IsOriginal(old(daemon.containers), service.containerName, container.id)
                && (container.id.None? ==> ok && daemon.Smooth(calls))
                && (container.id.Some? ==>
                      && daemon.next == old(daemon.next) + calls + 1
                      && ok == !MomentAt(daemon.script, old(daemon.next) + calls).fails
                      && (MomentAt(daemon.script, old(daemon.next) + calls).victims == [] ==> daemon.deaths == old(daemon.deaths)))
    {
      hide Faded, UniqueNames, NameFree, Calm, MomentAt;
      ghost var w0, d0 := daemon.containers, daemon.deaths;
      CalmSplit(daemon.script, daemon.next, 1, 0);
      var there;
      ok, there := container.Exists();
      ghost var w1, d1 := daemon.containers, daemon.deaths;
      FadedNamed(w0, w1, d0, d1, service.containerName);
      if !ok || !there {
        return ok, false;
      }
      ok, wasRunning := container.IsRunning();
      FadedTransitive(w0, w1, daemon.containers, d0, d1, daemon.deaths);
      FadedNamed(w0, daemon.containers, d0, daemon.deaths, service.containerName);
    }

    /** Looks for the original and, if there is one, stops and renames it and makes a handle of its own for it. */
    method SetOriginalAside(stamp: string)
      returns (stage: Stage, wasRunning: bool, ghost found: Option<Id>, ghost half: bool)
      requires Ready() && original == null
      modifies this`original, container`id, daemon
      ensures daemon.Went(false) && container.Known()
      ensures stage.Unseen? || stage.Seen? || stage.Moved?
      ensures found.Some? ==> Named(old(daemon.containers), found.value, service.containerName)
      ensures original != null <==> stage.Moved? && found.Some?
      ensures original != null ==>
                fresh(original) && original.daemon == daemon && original.id == found && original.name == Backup(stamp)
      ensures stage.Unseen? ==> container.id.None? && daemon.OnlyDeaths()
      ensures stage.Seen? ==> found.Some? && container.id == found
      ensures stage.Seen? && !half ==> daemon.OnlyDeaths()
      ensures stage.Seen? && half ==>
                daemon.Became(SetRunning(old(daemon.containers), found.value, false))
      ensures stage.Moved? ==>
                && container.id.None?
                && IsOriginal(old(daemon.containers), service.containerName, found)
                && ObservedRunning(old(daemon.containers), found, old(daemon.deaths), daemon.deaths, wasRunning)
                && (found.Some? ==> NameFree(old(daemon.containers), Backup(stamp)))
                && daemon.Became(Rolling(old(daemon.containers), found, Backup(stamp)))
      ensures daemon.CalmFor(ListCalls(old(container.id))) ==> IsOriginal(old(daemon.containers), service.containerName, found)
      // It takes a failing call, or a taken backup name, to keep it from succeeding.
      ensures !stage.Moved? ==> daemon.faults > old(daemon.faults) || (found.Some? && !NameFree(old(daemon.containers), Backup(stamp)))
      // All goes well, in so many calls, if none of them fails and nobody dies.
      ensures (found.Some? ==> NameFree(old(daemon.containers), Backup(stamp))) ==>
                var calls := AsideCalls(old(daemon.containers), old(container.id), found);
                daemon.CalmFor(calls) ==>
                  stage.Moved? && daemon.Smooth(calls) && wasRunning == (found.Some? && old(daemon.containers)[found.value].running)
      // The call that asks whether the original runs.
      ensures var calls := ListCalls(old(container.id));
              found.Some? && daemon.CalmFor(calls) && MomentAt(daemon.script, old(daemon.next) + calls) == Moment([], true) ==>
                stage.Seen? && !half && daemon.Smooth(calls + 1)
    {
      hide Faded, UniqueNames, NameFree, Rolling, SetAside, SetRunning, ObservedRunning, Calm, MomentAt, AsideCalls;
      ghost var n, id0 := daemon.next, container.id;
      ghost var w0, d0 := daemon.containers, daemon.deaths;
      found, half, wasRunning := None, false, false;
      var ok;
      ok, wasRunning := FindOriginal();
      ghost var w2, d2 := daemon.containers, daemon.deaths;
      var existing := container.id;
      found := existing;
      RollingIs(w0, found, Backup(stamp));
      FadedNamed(w0, w2, d0, d2, Backup(stamp));
      FadedStands(w0, w2, d0, d2);
      AsideSplit(daemon.script, n, w0, id0, found);
      if !ok {
        stage := if existing.Some? then Seen else Unseen;
        return stage, false, found, half;
      }
      if existing.None? {
        NothingObserved(w0, d0, d2);
        return Moved, false, found, half;
      }
      ghost var target;
      ok, target, half := container.StopAndRename(Backup(stamp));
      ghost var w3, d3 := daemon.containers, daemon.deaths;
      LongerName(service.containerName, stamp);
      if !ok {
        HalfAsideWorld(w0, w2, w3, d0, d2, d3, existing.value, half);
        return Seen, wasRunning, found, half;
      }
      AsideWorld(w0, w2, w3, d0, d2, d3, existing.value, Backup(stamp), wasRunning);
      original := new Container(daemon, Backup(stamp), existing);
      stage := Moved;
    }

    /** The name an original is set aside under. */
    function Backup(stamp: string): string {
      BackupName(service.containerName, stamp)
    }

    /** The image is there, and so is the name to set the original aside under. */
    ghost predicate Possible(w: World, found: Option<Id>, stamp: string) {
      service.imageName in daemon.images && (found.Some? ==> NameFree(w, Backup(stamp)))
    }

    /** The first half of a run: set the original aside, create the new container. */
    method Prepare(stamp: string) returns (stage: Stage, wasRunning: bool, ghost found: Option<Id>, ghost half: bool)
      requires Ready() && original == null && container.image == Some(service.imageName)
      requires container.config == Config(map[], [], map[], map[], None)
      modifies this`original, container, daemon
      ensures daemon.Went(false) && container.Known()
      ensures container.name == old(container.name) && container.image == old(container.image)
      ensures container.config == ConfigOf(service)
      ensures found.Some? ==> Named(old(daemon.containers), found.value, service.containerName)
      ensures original != null <==> (stage.Moved? || stage.Created?) && found.Some?
      ensures original != null ==>
                fresh(original) && original.daemon == daemon && original.id == found && original.name == Backup(stamp)
      ensures stage.Unseen? ==> container.id.None? && daemon.OnlyDeaths()
      // A failure after the original was seen leaves its id in the hands of the new handle.
      ensures stage.Seen? ==> found.Some? && container.id == found
      ensures stage.Seen? && !half ==> daemon.OnlyDeaths()
      ensures stage.Seen? && half ==>
                daemon.Became(SetRunning(old(daemon.containers), found.value, false))
      ensures stage.Moved? || stage.Created? ==>
                && IsOriginal(old(daemon.containers), service.containerName, found)
                && ObservedRunning(old(daemon.containers), found, old(daemon.deaths), daemon.deaths, wasRunning)
                && (found.Some? ==> NameFree(old(daemon.containers), Backup(stamp)))
      ensures stage.Moved? ==>
                && container.id.None?
                && daemon.Became(Rolling(old(daemon.containers), found, Backup(stamp)))
      ensures stage.Created? ==>
                && container.id.Some? && container.id.value >= old(daemon.nextId)
                && service.imageName in daemon.images
                && daemon.Became(Rolling(old(daemon.containers), found, Backup(stamp))[container.id.value := NewRecord()])
      ensures daemon.CalmFor(ListCalls(old(container.id))) ==> IsOriginal(old(daemon.containers), service.containerName, found)
      // It takes a failing call to keep a run that is possible from getting here.
      ensures !stage.Created? && Possible(old(daemon.containers), found, stamp) ==> daemon.faults > old(daemon.faults)
      // All goes well, in so many calls, if none of them fails and nobody dies.
      ensures Possible(old(daemon.containers), found, stamp) ==>
                var calls := AsideCalls(old(daemon.containers), old(container.id), found) + 2;
                daemon.CalmFor(calls) ==>
                  stage.Created? && daemon.Smooth(calls)
                  && wasRunning == (found.Some? && old(daemon.containers)[found.value].running)
      // The second call after that creates the new container.
      ensures (found.Some? ==> NameFree(old(daemon.containers), Backup(stamp))) ==>
                var calls := AsideCalls(old(daemon.containers), old(container.id), found);
                daemon.CalmFor(calls + 1) && MomentAt(daemon.script, old(daemon.next) + calls + 1).fails ==> stage.Moved?
      // The call that asks whether the original runs.
      ensures var calls := ListCalls(old(container.id));
              found.Some? && daemon.CalmFor(calls) && MomentAt(daemon.script, old(daemon.next) + calls) == Moment([], true) ==>
                stage.Seen? && !half && daemon.Smooth(calls + 1)
    {
      hide Faded, UniqueNames, Rolling, ObservedRunning, NewRecord, Calm, MomentAt;
      ghost var w0, d0 := daemon.containers, daemon.deaths;
      ghost var n, cid := daemon.next, container.id;
      ApplySettings();
      stage, wasRunning, found, half := SetOriginalAside(stamp);
      CalmSplit(daemon.script, n, AsideCalls(w0, cid, found), 2);
      CalmSplit(daemon.script, n, AsideCalls(w0, cid, found), 1);
      CalmSplit(daemon.script, n + AsideCalls(w0, cid, found), 1, 1);
      CalmSplit(daemon.script, n + AsideCalls(w0, cid, found) + 1, 1, 0);
      if !stage.Moved? {
        return;
      }
      ghost var rolling := Rolling(w0, found, Backup(stamp));
      ghost var w1, d1 := daemon.containers, daemon.deaths;
      LongerName(service.containerName, stamp);
      RollingFreesName(w0, found, service.containerName, Backup(stamp));
      FadedNamed(rolling, w1, d0, d1, service.containerName);
      var ok := container.EnsureContainer();
      ghost var w2, d2 := daemon.containers, daemon.deaths;
      ObservedLater(w0, found, d0, d1, d2, wasRunning);
      if !ok {
        FadedTransitive(rolling, w1, w2, d0, d1, d2);
        return;
      }
      NewRecordIs();
      ghost var newId := container.id.value;
      FadedPut(rolling, w1, d0, d1, newId, NewRecord());
      FadedTransitive(rolling[newId := NewRecord()], w1[newId := NewRecord()], w2, d0, d1, d2);
      stage := Created;
    }

    lemma NewRecordIs()
      requires service.imageName in daemon.images
      ensures NewRecord() == Record(service.containerName, false, daemon.images[service.imageName], ConfigOf(service))
    {
    }

    /** The record of the service's new container before it is started. */
    ghost function NewRecord(): Record {
      Record(service.containerName, false,
             if service.imageName in daemon.images then daemon.images[service.imageName] else 0, ConfigOf(service))
    }

    /** The second half of a run: start the new container and wait for proof of its start. */
    method Confirm(startup: Startup) returns (confirmed: bool, ghost launched: bool)
      requires container.daemon == daemon && daemon.Valid() && Plays(startup)
      requires container.id.Some? && container.id.value in daemon.containers && !daemon.containers[container.id.value].running
      modifies container`id, daemon
      ensures daemon.Went(false) && container.id == old(container.id) && container.Known()
      ensures !launched ==> !confirmed && daemon.OnlyDeaths()
      ensures launched ==>
                && daemon.containers[container.id.value].running
                && daemon.Became(SetRunning(old(daemon.containers), container.id.value, true))
      ensures confirmed <==> launched && Proves(startup)
      ensures Launches(startup) && !launched ==> daemon.faults > old(daemon.faults)
      ensures Launches(startup) && daemon.CalmFor(2) ==> launched && daemon.Smooth(2)
    {
      hide Faded, UniqueNames, SetRunning, Plays, Launches, Proves, AtVerdict, Calm;
      FadedReflexive(daemon.containers, daemon.deaths);
      CalmSplit(daemon.script, daemon.next, 1, 1);
      CalmSplit(daemon.script, daemon.next + 1, 1, 0);
      ProvesMeansLaunches(startup);
      if !Launches(startup) {
        return false, false;
      }
      ghost var w0, d0 := daemon.containers, daemon.deaths;
      ghost var w := SetRunning(w0, container.id.value, true);
      ghost var levels;
      confirmed, levels := container.EnsureContainerRunning();
      launched := confirmed;
      if !confirmed {
        return;
      }
      FadedKeepsNames(w, daemon.containers, d0, daemon.deaths);
      SetRunningKeys(w0, container.id.value, true);
      confirmed := Proves(startup);
    }

    /** Can the original be put back? */
    ghost predicate Recoverable()
      reads this, container, original, daemon
    {
      original != null ==>
        && original != container && original.daemon == daemon && original.name != container.name
        && original.id.Some? && original.id.value in daemon.containers && !daemon.containers[original.id.value].running
    }

    /**
     Puts the original back under the service's name and starts it if it ran. The error of
     a failed renaming is overwritten by the outcome of the start.
     */
    method Recover(wasRunning: bool) returns (ok: bool, ghost renamed: bool, ghost started: bool)
      requires daemon.Valid() && Recoverable()
      modifies original, daemon
      ensures daemon.Went(false)
      ensures original == null ==> ok && !renamed && !started && daemon.OnlyDeaths() && daemon.faults == old(daemon.faults)
      ensures original != null ==>
                && old(original.id).Some? && old(original.id).value in old(daemon.containers)
                && daemon.Became(Recovered(old(daemon.containers), old(original.id).value, container.name, renamed, started))
                && (started ==> wasRunning)
                && ok == (if wasRunning then started else renamed)
      ensures original != null && NameFree(old(daemon.containers), container.name) && daemon.faults == old(daemon.faults) ==>
                ok && renamed
      // The first call is the renaming; the next two start the original.
      ensures original != null && NameFree(old(daemon.containers), container.name) ==>
                && daemon.next > old(daemon.next)
                && renamed == !MomentAt(daemon.script, old(daemon.next)).fails
                && (wasRunning ==> started == (!MomentAt(daemon.script, old(daemon.next) + 1).fails
                                               && !MomentAt(daemon.script, old(daemon.next) + 2).fails))
    {
      hide Faded, UniqueNames, SetRunning, SetName;
      ghost var w0, d0 := daemon.containers, daemon.deaths;
      FadedReflexive(w0, d0);
      ok, renamed, started := true, false, false;
      if original == null {
        return;
      }
      ghost var o := original.id.value;
      ok := original.Rename(container.name);
      renamed := ok;
      ghost var w1, d1 := daemon.containers, daemon.deaths;
      ghost var m := Recovered(w0, o, container.name, renamed, false);
      RecoveredSteps(w0, o, container.name, renamed);
      FadedRunning(m, w1, d0, d1, o);
      if wasRunning {
        ghost var levels;
        ok, levels := original.EnsureContainerRunning();
        started := ok;
        if ok {
          FadedSetRunning(m, w1, d0, d1, o, true);
          FadedTransitive(SetRunning(m, o, true), SetRunning(w1, o, true), daemon.containers, d0, d1, daemon.deaths);
        } else {
          FadedTransitive(m, w1, daemon.containers, d0, d1, daemon.deaths);
        }
      }
    }

    /** What is done about a failed run: purge the new container, then recover the original. */
    method Rollback(wasRunning: bool)
      returns (purged: bool, recovered: bool, ghost target: Option<Id>, ghost stopped: bool, ghost renamed: bool, ghost started: bool,
        ghost renameCall: nat)
      requires container.daemon == daemon && daemon.Valid() && container.Known()
      requires Recoverable() && (original != null ==> container.id != original.id)
      modifies container`id, original, daemon
      ensures daemon.Went(false)
      ensures purged ==> old(container.id).Some?
      ensures !purged ==> !recovered && !renamed
      ensures started ==> purged && wasRunning
      ensures !purged && !stopped ==> daemon.OnlyDeaths()
      ensures !purged && stopped ==>
                && target.Some? && target.value in old(daemon.containers)
                && (old(container.id).Some? ==> target == old(container.id))
                && (old(container.id).None? ==> Named(old(daemon.containers), target.value, container.name))
                && daemon.Became(SetRunning(old(daemon.containers), target.value, false))
      ensures purged && original == null ==>
                recovered && daemon.Became(old(daemon.containers) - {old(container.id).value})
      ensures purged && original != null ==>
                && old(original.id).Some? && old(original.id).value in old(daemon.containers) - {old(container.id).value}
                && daemon.Became(Recovered(old(daemon.containers) - {old(container.id).value}, old(original.id).value, container.name, renamed, started))
                && (started ==> wasRunning)
                && recovered == (if wasRunning then started else renamed)
      ensures daemon.faults == old(daemon.faults) && old(container.id).Some? ==> purged
      ensures purged && original == null ==> daemon.faults == old(daemon.faults)
      ensures old(container.id).None? ==>
                if daemon.faults > old(daemon.faults) then !stopped
                else if target.Some? then stopped else NameFree(old(daemon.containers), container.name)
      ensures daemon.faults == old(daemon.faults) && old(container.id).Some?
              && (original != null ==> NameFree(old(daemon.containers) - {old(container.id).value}, container.name))
              ==> recovered && (original != null ==> renamed)
      // Which call is the renaming, and what its answer and those of the next two calls decide.
      ensures purged ==> old(daemon.next) <= renameCall <= daemon.next
      ensures purged && original != null && NameFree(old(daemon.containers) - {old(container.id).value}, container.name) ==>
                && renameCall < daemon.next
                && renamed == !MomentAt(daemon.script, renameCall).fails
                && (wasRunning ==> started == (!MomentAt(daemon.script, renameCall + 1).fails
                                               && !MomentAt(daemon.script, renameCall + 2).fails))
      ensures old(container.id).Some? ==>
                var calls := StopCalls(old(daemon.containers), old(container.id).value) + 1;
                daemon.CalmFor(calls) ==> purged && renameCall == old(daemon.next) + calls
    {
      hide Faded, UniqueNames, SetRunning, SetName, Recovered, Calm, MomentAt;
      ghost var w0, d0 := daemon.containers, daemon.deaths;
      recovered, renamed, started := false, false, false;
      ghost var cid := container.id;
      purged, target, stopped := container.Purge();
      renameCall := daemon.next;
      if !purged {
        return;
      }
      ghost var w1, d1 := daemon.containers, daemon.deaths;
      ghost var m := w0 - {cid.value};
      FadedNamed(m, w1, d0, d1, container.name);
      recovered, renamed, started := Recover(wasRunning);
      if original == null {
        FadedTransitive(m, w1, daemon.containers, d0, d1, daemon.deaths);
      } else {
        ghost var o := old(original.id).value;
        FadedRecovered(m, w1, d0, d1, o, container.name, renamed, started);
        FadedTransitive(Recovered(m, o, container.name, renamed, started), Recovered(w1, o, container.name, renamed, started),
                        daemon.containers, d0, d1, daemon.deaths);
      }
    }

    /** Prepare, then confirm; `launched` says whether the new container was started. */
    method Attempt(stamp: string, startup: Startup)
      returns (stage: Stage, confirmed: bool, wasRunning: bool, ghost found: Option<Id>, ghost half: bool, ghost launched: bool)
      requires Ready() && original == null && container.image == Some(service.imageName)
      requires container.config == Config(map[], [], map[], map[], None)
      requires Plays(startup)
      modifies this`original, container, daemon
      ensures daemon.Went(false) && container.Known()
      ensures container.name == old(container.name) && container.config == ConfigOf(service)
      ensures Attempted(old(daemon.containers), daemon.containers, old(daemon.deaths), daemon.deaths, found, service.containerName,
                        Backup(stamp), container.id, NewRecord().(running := launched), old(daemon.nextId), stage, half, wasRunning)
      ensures found.Some? ==> Named(old(daemon.containers), found.value, service.containerName)
      ensures stage.Seen? ==>
                container.id == found && (!half && daemon.deaths == old(daemon.deaths) ==> daemon.containers == old(daemon.containers))
      ensures original != null <==> (stage.Moved? || stage.Created?) && found.Some?
      ensures original != null ==>
                fresh(original) && original.daemon == daemon && original.id == found && original.name == Backup(stamp)
      ensures stage.Created? ==> container.id.Some? && service.imageName in daemon.images
      ensures confirmed ==>
                && Ready() && BothThere(found, stamp)
                && Bystanders(old(daemon.containers), daemon.containers, old(daemon.deaths), daemon.deaths,
                              service.containerName, old(daemon.nextId))
      ensures confirmed <==> stage.Created? && launched && Proves(startup)
      ensures daemon.CalmFor(ListCalls(old(container.id))) ==> IsOriginal(old(daemon.containers), service.containerName, found)
      ensures Possible(old(daemon.containers), found, stamp) && Launches(startup) && !(stage.Created? && launched) ==>
                daemon.faults > old(daemon.faults)
      ensures Possible(old(daemon.containers), found, stamp) && Launches(startup) ==>
                var calls := AsideCalls(old(daemon.containers), old(container.id), found) + 4;
                daemon.CalmFor(calls) ==>
                  && stage.Created? && launched && daemon.Smooth(calls) && daemon.containers[container.id.value].running
                  && wasRunning == (found.Some? && old(daemon.containers)[found.value].running)
      ensures (found.Some? ==> NameFree(old(daemon.containers), Backup(stamp))) ==>
                var calls := AsideCalls(old(daemon.containers), old(container.id), found);
                daemon.CalmFor(calls + 1) && MomentAt(daemon.script, old(daemon.next) + calls + 1).fails ==> stage.Moved?
      ensures var calls := ListCalls(old(container.id));
              found.Some? && daemon.CalmFor(calls) && MomentAt(daemon.script, old(daemon.next) + calls) == Moment([], true) ==>
                stage.Seen? && !half && daemon.Smooth(calls + 1)
    {
      hide Faded, UniqueNames, Rolling, SetRunning, ObservedRunning, NewRecord, NameFree, Bystanders;
      hide Plays, Launches, Proves, Calm, MomentAt, AsideCalls;
      ghost var n, id0 := daemon.next, container.id;
      ghost var w0, d0 := daemon.containers, daemon.deaths;
      confirmed, launched := false, false;
      stage, wasRunning, found, half := Prepare(stamp);
      ghost var calls := AsideCalls(w0, id0, found) + 2;
      CalmSplit(daemon.script, n, calls, 2);
      if !stage.Created? {
        if stage.Seen? && !half {
          FadedStands(w0, daemon.containers, d0, daemon.deaths);
        }
        return;
      }
      ghost var w1, d1 := daemon.containers, daemon.deaths;
      ghost var newId, r := container.id.value, NewRecord();
      ghost var rolling := Rolling(w0, found, Backup(stamp));
      NewRecordIs();
      FadedKeepsNames(rolling[newId := r], w1, d0, d1);
      FadedRunning(rolling[newId := r], w1, d0, d1, newId);
      confirmed, launched := Confirm(startup);
      LaunchedWorld(rolling, w1, daemon.containers, d0, d1, daemon.deaths, newId, r, launched);
      ObservedLater(w0, found, d0, d1, daemon.deaths, wasRunning);
      if confirmed {
        NewRecordName();
        ConfirmedWorld(w0, daemon.containers, d0, daemon.deaths, found, service.containerName, Backup(stamp), container.id,
                       r.(running := launched), old(daemon.nextId), half, wasRunning);
      }
    }

    /**
     The rollback of an attempt that failed, and the world it leaves, in terms of the world
     `w0` the attempt began in.
     */
    method Undo(stage: Stage, wasRunning: bool, ghost w0: World, ghost d0: seq<Id>, ghost n0: Id, ghost stamp: string,
                ghost found: Option<Id>, ghost half: bool, ghost r: Record)
      returns (result: RunResult, ghost renameCall: nat, ghost clean: bool)
      requires container.daemon == daemon && daemon.Valid() && container.Known() && container.name == service.containerName
      requires UniqueNames(w0) && (forall i | i in w0 :: i < n0) && r.name == service.containerName
      requires Attempted(w0, daemon.containers, d0, daemon.deaths, found, service.containerName, Backup(stamp), container.id, r, n0,
                         stage, half, wasRunning)
      requires original != null <==> (stage.Moved? || stage.Created?) && found.Some?
      requires original != null ==>
                 original != container && original.daemon == daemon && original.id == found && original.name == Backup(stamp)
      modifies container`id, original, daemon
      ensures daemon.Went(false)
      ensures result.RunFailed? && result.stage == stage
      ensures !stage.Created? ==> result.recovered == result.purged
      ensures stage.Moved? ==> !result.purged
      ensures FailedRun(w0, daemon.containers, d0, daemon.deaths, found, service.containerName, Backup(stamp), result, clean,
                        MomentAt(daemon.script, renameCall).fails)
      ensures stage.Created? && result.purged && found.Some? ==> old(daemon.next) <= renameCall < daemon.next
      ensures Bystanders(w0, daemon.containers, d0, daemon.deaths, service.containerName, n0)
      ensures stage.Created? && old(daemon.containers)[old(container.id).value].running && daemon.CalmFor(3) ==>
                result.purged && renameCall == old(daemon.next) + 3
      ensures stage.Seen? && old(daemon.containers) == w0 && daemon.CalmFor(StopCalls(w0, found.value) + 1) ==>
                result == RunFailed(Seen, true, true)
      ensures stage.Created? && found.Some? && result.purged && wasRunning ==>
                result.recovered == (!MomentAt(daemon.script, renameCall + 1).fails && !MomentAt(daemon.script, renameCall + 2).fails)
    {
      hide Faded, UniqueNames, Rolling, Recovered, SetRunning, ObservedRunning, Bystanders, FailedRun, NameFree, Calm, MomentAt;
      ghost var w1, d1, faults, cid := daemon.containers, daemon.deaths, daemon.faults, container.id;
      LongerName(service.containerName, stamp);
      AttemptedWorld(w0, w1, d0, d1, found, service.containerName, Backup(stamp), cid, r, n0, stage, half, wasRunning);
      ghost var target, stopped, renamed, started;
      var purged, recovered;
      purged, recovered, target, stopped, renamed, started, renameCall := Rollback(wasRunning);
      clean := daemon.faults == faults;
      result := RunFailed(stage, purged, recovered);
      UndoneWorld(w0, w1, daemon.containers, d0, d1, daemon.deaths, found, service.containerName, Backup(stamp), cid, r, n0, result,
                  half, wasRunning, target, stopped, renamed, started, clean, MomentAt(daemon.script, renameCall).fails);
    }

    /**
     A run: the attempt, and the rollback if it fails. `found` is the original; `renameCall`
     says which call of the daemon was the rollback's renaming, `clean` whether no call
     failed during the rollback.
     */
    method Run(stamp: string, startup: Startup)
      returns (result: RunResult, ghost found: Option<Id>, ghost renameCall: nat, ghost clean: bool)
      requires Ready() && original == null && container.image == Some(service.imageName)
      requires container.config == Config(map[], [], map[], map[], None)
      requires Plays(startup)
      modifies this`original, container, daemon
      ensures daemon.Went(false) && container.name == old(container.name) && container.config == ConfigOf(service)
      ensures found.Some? ==> Named(old(daemon.containers), found.value, service.containerName)
      // Success: the original is aside, the new container has proved its start.
      ensures result.RunOk? ==>
                && Ready() && BothThere(found, stamp) && Proves(startup)
                && (original != null <==> found.Some?)
                && (original != null ==> fresh(original) && original.daemon == daemon && original.id == found)
      ensures result.RunFailed? ==> RolledBackFrom(result, found, stamp, renameCall, clean)
      ensures daemon.CalmFor(ListCalls(old(container.id))) ==> IsOriginal(old(daemon.containers), service.containerName, found)
      // A start-up that proves the start is not rolled back unless a call fails.
      ensures Possible(old(daemon.containers), found, stamp) && Proves(startup) ==>
                && (result.RunOk? || daemon.faults > old(daemon.faults))
                && (daemon.CalmFor(AsideCalls(old(daemon.containers), old(container.id), found) + 4) ==> result.RunOk?)
      // A start-up that proves nothing, on a daemon that is calm until the rollback's renaming: which call that is.
      ensures Possible(old(daemon.containers), found, stamp) && Launches(startup) && !Proves(startup) ==>
                var calls := AsideCalls(old(daemon.containers), old(container.id), found) + 7;
                daemon.CalmFor(calls) ==>
                  && result.RunFailed? && result.stage.Created? && result.purged
                  && renameCall == old(daemon.next) + calls
                  && (found.Some? && old(daemon.containers)[found.value].running ==>
                        result.recovered == (!MomentAt(daemon.script, renameCall + 1).fails
                                             && !MomentAt(daemon.script, renameCall + 2).fails))
      // The call that creates the new container fails.
      ensures (found.Some? ==> NameFree(old(daemon.containers), Backup(stamp))) ==>
                var calls := AsideCalls(old(daemon.containers), old(container.id), found);
                daemon.CalmFor(calls + 1) && MomentAt(daemon.script, old(daemon.next) + calls + 1).fails ==>
                  result == RunFailed(Moved, false, false)
      // The call that asks whether the original runs fails: the rollback takes the original for the new container.
      ensures var calls := ListCalls(old(container.id));
              found.Some? && daemon.CalmFor(calls) && MomentAt(daemon.script, old(daemon.next) + calls) == Moment([], true)
              && Calm(daemon.script, old(daemon.next) + calls + 1,
                      old(daemon.next) + calls + 1 + StopCalls(old(daemon.containers), found.value) + 1) ==>
                result == RunFailed(Seen, true, true)
      // In every case only containers of the service's name, and new ones, are touched.
      ensures Bystanders(old(daemon.containers), daemon.containers, old(daemon.deaths), daemon.deaths,
                         service.containerName, old(daemon.nextId))
    {
      hide Faded, UniqueNames, Rolling, NewRecord, Bystanders, FailedRun, NameFree, Attempted, BothThere, Possible;
      hide IsOriginal, ConfigOf, Backup, ListCalls, Plays, Launches, Proves, Calm, MomentAt, AsideCalls;
      ghost var n, id0 := daemon.next, container.id;
      ghost var w0, d0, n0 := daemon.containers, daemon.deaths, daemon.nextId;
      renameCall, clean := 0, false;
      var stage, confirmed, wasRunning;
      ghost var half, launched;
      stage, confirmed, wasRunning, found, half, launched := Attempt(stamp, startup);
      CalmSplit(daemon.script, n, AsideCalls(w0, id0, found) + 4, 3);
      ProvesMeansLaunches(startup);
      ghost var r := NewRecord().(running := launched);
      NewRecordName();
      if confirmed {
        return RunOk, found, renameCall, clean;
      }
      result, renameCall, clean := Undo(stage, wasRunning, w0, d0, n0, stamp, found, half, r);
    }

    /** Removes the original once the new container has taken over. */
    method PurgeOriginal() returns (ok: bool, ghost target: Option<Id>, ghost stopped: bool)
      requires daemon.Valid()
      requires original != null ==>
                 original != container && original.daemon == daemon && original.id.Some? && original.id.value in daemon.containers
      modifies original, daemon
      ensures daemon.Went(ok)
      ensures original == null ==> ok && daemon.OnlyDeaths()
      ensures !ok ==> daemon.faults > old(daemon.faults)
      ensures original != null && ok ==>
                old(original.id).Some?
                && daemon.Became(old(daemon.containers) - {old(original.id).value})
      ensures original != null && !ok && !stopped ==> daemon.OnlyDeaths()
      ensures original != null && !ok && stopped ==>
                target == old(original.id) && target.Some? && target.value in old(daemon.containers)
                && daemon.Became(SetRunning(old(daemon.containers), target.value, false))
    {
      FadedReflexive(daemon.containers, daemon.deaths);
      ok, target, stopped := true, None, false;
      if original != null {
        ok, target, stopped := original.Purge();
      }
    }

    /**
     Records the deployment. On success the record in memory is left as it is; it is
     replaced only when the file could not be written.
     */
    method Save() returns (ok: bool)
      requires container.daemon == daemon && daemon.Valid() && container.Known() && container.id.Some?
      ensures store.faults >= old(store.faults)
      modifies this`record, container`id, daemon, store
      ensures daemon.Went(false) && daemon.OnlyDeaths() && container.id == old(container.id) && container.Known()
      ensures ok ==>
                && record == old(record)
                && store.files == old(store.files)[service.name := RecordOf(service, container.id.value, daemon.containers[container.id.value].image)]
      ensures !ok ==> Unrecorded(old(record)) && (daemon.faults > old(daemon.faults) || store.faults > old(store.faults))
    {
      var image;
      ok, image := container.GetImageID();
      if !ok {
        return;
      }
      var deployed := RecordOf(service, container.id.value, image);
      ok := store.Save(service.name, deployed);
      if !ok {
        record := Some(deployed);
      }
    }

    /** The end of a deployment whose run succeeded: purge the original, then record. */
    method Commit() returns (result: DeployResult, ghost stopped: bool)
      requires container.daemon == daemon && daemon.Valid() && container.Known() && container.id.Some?
      requires original != null ==>
                 && original != container && original.daemon == daemon && original.id.Some?
                 && original.id != container.id && original.id.value in daemon.containers
      modifies this`record, container`id, original, daemon, store
      ensures daemon.Went(false) && store.faults >= old(store.faults) && container.id == old(container.id)
      ensures result == Deployed || result == Failed(PurgeFailed) || result == Failed(SaveFailed)
      ensures result.Deployed? ==>
                && container.id.value in daemon.containers
                && store.files == old(store.files)[service.name := RecordOf(service, container.id.value, daemon.containers[container.id.value].image)]
      ensures !result.Deployed? ==> store.files == old(store.files)
      ensures result.Deployed? || result == Failed(PurgeFailed) ==> record == old(record)
      ensures result == Failed(SaveFailed) ==> Unrecorded(old(record))
      ensures !result.Deployed? ==> daemon.faults > old(daemon.faults) || store.faults > old(store.faults)
      ensures original == null ==> result != Failed(PurgeFailed) && daemon.OnlyDeaths()
      ensures original != null && result != Failed(PurgeFailed) ==>
                && old(original.id).Some?
                && daemon.Became(old(daemon.containers) - {old(original.id).value})
      ensures original != null && result == Failed(PurgeFailed) && !stopped ==> daemon.OnlyDeaths()
      ensures original != null && result == Failed(PurgeFailed) && stopped ==>
                && old(original.id).Some? && old(original.id).value in old(daemon.containers)
                && daemon.Became(SetRunning(old(daemon.containers), old(original.id).value, false))
    {
      hide Faded, UniqueNames, SetRunning;
      ghost var w0, d0 := daemon.containers, daemon.deaths;
      ghost var m := if original == null then w0 else w0 - {original.id.value};
      ghost var target;
      var ok;
      ok, target, stopped := PurgeOriginal();
      if !ok {
        return Failed(PurgeFailed), stopped;
      }
      ghost var w1, d1 := daemon.containers, daemon.deaths;
      FadedKeepsNames(m, w1, d0, d1);
      ok := Save();
      FadedTransitive(m, w1, daemon.containers, d0, d1, daemon.deaths);
      result := if ok then Deployed else Failed(SaveFailed);
    }

    /** Run, purge of the original, record. */
    method Replace(stamp: string, startup: Startup)
      returns (result: DeployResult, ghost found: Option<Id>, ghost renameCall: nat, ghost clean: bool)
      requires Ready() && original == null && container.image == Some(service.imageName)
      requires container.config == Config(map[], [], map[], map[], None)
      requires Plays(startup) && startup.cfg.successes == service.successes
      modifies this, container, daemon, store
      ensures daemon.Went(false) && store.faults >= old(store.faults)
      ensures found.Some? ==> Named(old(daemon.containers), found.value, service.containerName)
      ensures !result.NotChanged? && (result.Deployed? || result == Failed(SaveFailed) || result == Failed(PurgeFailed) || result.failure.RunFailure?)
      ensures result.Deployed? || result == Failed(SaveFailed) ==> TakenOver(found, startup)
      ensures result.Deployed? ==> record == old(record) && Recorded()
      ensures result == Failed(SaveFailed) ==> Unrecorded(old(record))
      ensures !result.Deployed? ==> store.files == old(store.files)
      ensures result == Failed(PurgeFailed) ==> found.Some? && BothThere(found, stamp) && Proves(startup)
      ensures result.Failed? && result.failure.RunFailure? ==>
                RolledBackFrom(result.failure.run, found, stamp, renameCall, clean)
      // A start-up that proves the start is deployed unless a call fails.
      ensures Possible(old(daemon.containers), found, stamp) && Proves(startup) && result.Failed? ==>
                daemon.faults > old(daemon.faults) || store.faults > old(store.faults)
      ensures Bystanders(old(daemon.containers), daemon.containers, old(daemon.deaths), daemon.deaths,
                         service.containerName, old(daemon.nextId))
    {
      hide Faded, UniqueNames, NameFree, Rolling, SetRunning, NewRecord, Bystanders, FailedRun, TookOver, AsideCalls;
      hide Plays, Launches, Proves, StartedWell, Calm, MomentAt;
      ghost var w0, d0, n0 := daemon.containers, daemon.deaths, daemon.nextId;
      ghost var name := service.containerName;
      var run;
      run, found, renameCall, clean := Run(stamp, startup);
      ghost var w2, d2 := daemon.containers, daemon.deaths;
      if !run.RunOk? {
        return Failed(RunFailure(run)), found, renameCall, clean;
      }
      ghost var newId, r := container.id.value, NewRecord().(running := true);
      ProvesMeansLaunches(startup);
      AcceptedStartHasGoodCause(startup, service.successes);
      RunWorld(w0, w2, d0, d2, found, name, Backup(stamp), newId, r);
      ghost var stopped;
      result, stopped := Commit();
      ghost var purged := result != Failed(PurgeFailed);
      ghost var w3, d3 := daemon.containers, daemon.deaths;
      NewRecordName();
      PurgedWorld(w0, w2, w3, d0, d2, d3, found, name, Backup(stamp), newId, r, n0, purged, stopped);
      if purged {
        TookOverWorld(w0, w3, d0, d3, found, name, newId, NewRecord(), n0);
      }
    }

    /** Check, image, run, purge of the original, record. */
    method Deploy(stamp: string, startup: Startup)
      returns (result: DeployResult, ghost found: Option<Id>, ghost renameCall: nat, ghost clean: bool)
      requires Ready() && original == null && container.id == None
      requires container.config == Config(map[], [], map[], map[], None)
      requires Plays(startup) && startup.cfg.successes == service.successes
      modifies this, container, daemon, store
      ensures daemon.Went(false)
      // The new container has proved its start and taken the original's place, recorded or not.
      ensures result.Deployed? || result == Failed(SaveFailed) ==> TakenOver(found, startup)
      ensures result.Deployed? ==> record == None && Recorded()
      // The record in memory is replaced only when it could not be written.
      ensures result == Failed(SaveFailed) ==> Unrecorded(None)
      ensures result.NotChanged? ==>
                && daemon.OnlyDeaths() && old(record).Some? && container.id.Some?
                && Matches(old(record).value, service, daemon.containers, container.id.value)
                && daemon.containers[container.id.value].running
      ensures !result.Deployed? ==> store.files == old(store.files)
      // A recorded container that is unchanged and running is left alone.
      ensures forall i :: old(record).Some? && Matches(old(record).value, service, old(daemon.containers), i)
                          && old(daemon.containers)[i].running
                          && daemon.faults == old(daemon.faults) && !DiedBetween(i, old(daemon.deaths), daemon.deaths)
                          ==> result.NotChanged?
      ensures store.faults >= old(store.faults)
      // A failed run, rolled back.
      ensures result.Failed? && result.failure.RunFailure? ==>
                RolledBackFrom(result.failure.run, found, stamp, renameCall, clean)
      ensures result == Failed(PurgeFailed) ==> found.Some? && BothThere(found, stamp) && Proves(startup)
      // Before the run nothing is done.
      ensures result == Failed(CheckFailed) ==> daemon.OnlyDeaths()
      ensures result == Failed(ImageFailed) ==> daemon.OnlyDeaths() && !startup.imageReady
      ensures result != Failed(RecordUnreadable)
      // With an image, a backup name and a proof of the start it takes a failing call to keep it from succeeding.
      ensures startup.imageReady && Possible(old(daemon.containers), found, stamp) && Proves(startup) && result.Failed? ==>
                daemon.faults > old(daemon.faults) || store.faults > old(store.faults)
      ensures Bystanders(old(daemon.containers), daemon.containers, old(daemon.deaths), daemon.deaths,
                         service.containerName, old(daemon.nextId))
    {
      hide Faded, UniqueNames, NameFree, NewRecord, Bystanders, TookOver, FailedRun, Rolling;
      hide Plays, Launches, Proves, StartedWell, Calm, MomentAt;
      ghost var w0, d0, n0 := daemon.containers, daemon.deaths, daemon.nextId;
      ghost var name := service.containerName;
      found, renameCall, clean := None, 0, false;
      var check := CheckExists();
      ghost var w1, d1 := daemon.containers, daemon.deaths;
      BystandersOf(w0, w0, w1, d0, d1, name, n0);
      if check.CheckError? {
        return Failed(CheckFailed), found, renameCall, clean;
      }
      if check.UpToDate? {
        return NotChanged, found, renameCall, clean;
      }
      var ok := EnsureImage(startup.imageReady);
      if !ok {
        return Failed(ImageFailed), found, renameCall, clean;
      }
      result, found, renameCall, clean := Replace(stamp, startup);
      ghost var w2, d2 := daemon.containers, daemon.deaths;
      BystandersLater(w0, w1, w2, d0, d1, d2, name, n0);
      FadedNamed(w0, w1, d0, d1, Backup(stamp));
      if result.Deployed? || result == Failed(SaveFailed) {
        TookOverEarlier(w0, w1, w2, d0, d1, d2, found, name, container.id.value, NewRecord());
      } else if result == Failed(PurgeFailed) {
        SetAsideEarlier(w0, w1, w2, d0, d1, d2, found, name, Backup(stamp), container.id.value, NewRecord().(running := true));
      } else {
        LongerName(name, stamp);
        FailedRunEarlier(w0, w1, w2, d0, d1, d2, found, name, Backup(stamp), result.failure.run, clean,
                         MomentAt(daemon.script, renameCall).fails);
      }
    }

    lemma NewRecordName()
      ensures NewRecord().name == service.containerName
    {
    }
  }
}
