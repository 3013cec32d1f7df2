/**
 The docker daemon as the deployment sees it: containers by id, each call of the API
 possibly failing, and running containers possibly dying between calls. Which calls fail
 and who dies when is told by a script.
 */
module Daemon {
  import opened Options

  type Id = nat

  type ImageId = nat

  datatype PortBinding = PortBinding(hostIP: string, hostPort: int)

  /** What a container is created with. */
  datatype Config = Config(
    env: map<string, string>,
    args: seq<string>,
    ports: map<string, PortBinding>,
    mounts: map<string, string>,
    network: Option<string>
  )

  datatype Record = Record(name: string, running: bool, image: ImageId, config: Config)

  type World = map<Id, Record>

  ghost predicate UniqueNames(w: World) {
    forall i, j | i in w && j in w && w[i].name == w[j].name :: i == j
  }

  ghost predicate NameFree(w: World, name: string) {
    forall i | i in w :: w[i].name != name
  }

  /** The record is the same, or the container was running and has died by itself. */
  ghost predicate SameOrDied(a: Record, b: Record, died: bool) {
    a == b || (died && a.running && b == a.(running := false))
  }

  /** `id` is among the deaths between two moments, given by the logs of deaths at each. */
  ghost predicate DiedBetween(id: Id, d0: seq<Id>, d1: seq<Id>) {
    |d0| <= |d1| && id in d1[|d0|..]
  }

  /**
   The same world, up to spontaneous deaths in between: the same containers under the same
   names, and whichever has stopped running is logged as having died.
   */
  ghost predicate Faded(w0: World, w1: World, d0: seq<Id>, d1: seq<Id>) {
    && d0 <= d1
    && w0.Keys == w1.Keys
    && (forall i | i in w0 :: SameOrDied(w0[i], w1[i], DiedBetween(i, d0, d1)))
  }

  lemma FadedReflexive(w: World, d: seq<Id>)
    ensures Faded(w, w, d, d)
  {
  }

  lemma DiedBetweenMonotone(i: Id, d0: seq<Id>, d1: seq<Id>, d2: seq<Id>)
    requires d0 <= d1 <= d2
    ensures DiedBetween(i, d0, d2) <==> DiedBetween(i, d0, d1) || DiedBetween(i, d1, d2)
  {
  }

  lemma FadedTransitive(w0: World, w1: World, w2: World, d0: seq<Id>, d1: seq<Id>, d2: seq<Id>)
    requires Faded(w0, w1, d0, d1) && Faded(w1, w2, d1, d2)
    ensures Faded(w0, w2, d0, d2)
  {
  }

  /** Nothing an outsider's death does touches names. */
  lemma FadedKeepsNames(w0: World, w1: World, d0: seq<Id>, d1: seq<Id>)
    requires Faded(w0, w1, d0, d1)
    ensures UniqueNames(w0) ==> UniqueNames(w1)
    ensures forall n :: NameFree(w0, n) <==> NameFree(w1, n)
    ensures w0.Keys == w1.Keys
  {
  }

  lemma PutKeepsUnique(w: World, id: Id, r: Record)
    requires UniqueNames(w) && NameFree(w, r.name)
    ensures UniqueNames(w[id := r])
  {
  }

  function SetRunning(w: World, id: Id, running: bool): World
    requires id in w
  {
    w[id := w[id].(running := running)]
  }

  function SetName(w: World, id: Id, name: string): World
    requires id in w
  {
    w[id := w[id].(name := name)]
  }

  lemma SetRunningKeepsUnique(w: World, id: Id, running: bool)
    requires UniqueNames(w) && id in w
    ensures UniqueNames(SetRunning(w, id, running))
    ensures SetRunning(w, id, running).Keys == w.Keys
    ensures forall i | i in w :: SetRunning(w, id, running)[i].running == if i == id then running else w[i].running
  {
    assert forall i | i in w :: SetRunning(w, id, running)[i].name == w[i].name;
  }

  lemma OneMoreDeath(w0: World, w1: World, d0: seq<Id>, d1: seq<Id>, i: Id)
    requires Faded(w0, w1, d0, d1) && i in w1 && w1[i].running
    ensures Faded(w0, SetRunning(w1, i, false), d0, d1 + [i])
  {
    var w2, d2 := SetRunning(w1, i, false), d1 + [i];
    assert i in d2[|d1|..];
    FadedTransitive(w0, w1, w2, d0, d1, d2);
  }

  lemma FadedSetRunning(w0: World, w1: World, d0: seq<Id>, d1: seq<Id>, id: Id, running: bool)
    requires Faded(w0, w1, d0, d1) && id in w0
    ensures Faded(SetRunning(w0, id, running), SetRunning(w1, id, running), d0, d1)
  {
  }

  lemma FadedSetName(w0: World, w1: World, d0: seq<Id>, d1: seq<Id>, id: Id, name: string)
    requires Faded(w0, w1, d0, d1) && id in w0
    ensures Faded(SetName(w0, id, name), SetName(w1, id, name), d0, d1)
  {
  }

  lemma FadedPut(w0: World, w1: World, d0: seq<Id>, d1: seq<Id>, id: Id, r: Record)
    requires Faded(w0, w1, d0, d1)
    ensures Faded(w0[id := r], w1[id := r], d0, d1)
  {
  }

  lemma FadedWithout(w0: World, w1: World, d0: seq<Id>, d1: seq<Id>, id: Id)
    requires Faded(w0, w1, d0, d1)
    ensures Faded(w0 - {id}, w1 - {id}, d0, d1)
  {
  }

  /** What the world has in store for one call: who dies before it, and whether it fails. */
  datatype Moment = Moment(victims: seq<Id>, fails: bool)

  const CALM := Moment([], false)

  /** Beyond the script nobody dies and nothing fails. */
  function MomentAt(script: seq<Moment>, n: nat): Moment {
    if n < |script| then script[n] else CALM
  }

  /** Nobody dies and nothing fails from call number `from` up to, but not including, `to`. */
  ghost predicate Calm(script: seq<Moment>, from: nat, to: nat) {
    forall i | from <= i < to :: MomentAt(script, i) == CALM
  }

  /** None of these calls fails, nor is this container to die before one of them. */
  ghost predicate SparedCalls(script: seq<Moment>, from: nat, to: nat, id: Id) {
    forall n | from <= n < to :: !MomentAt(script, n).fails && id !in MomentAt(script, n).victims
  }

  /** Two stretches of calls, seen as one. */
  lemma SparedTwice(script: seq<Moment>, a: nat, b: nat, c: nat, d0: seq<Id>, d1: seq<Id>, d2: seq<Id>, id: Id)
    requires a <= b <= c && d0 <= d1 <= d2
    ensures SparedCalls(script, a, c, id) <==> SparedCalls(script, a, b, id) && SparedCalls(script, b, c, id)
    ensures DiedBetween(id, d0, d2) <==> DiedBetween(id, d0, d1) || DiedBetween(id, d1, d2)
  {
    DiedBetweenMonotone(id, d0, d1, d2);
  }

  lemma SparedOnce(script: seq<Moment>, n: nat, id: Id)
    ensures SparedCalls(script, n, n + 1, id) <==> !MomentAt(script, n).fails && id !in MomentAt(script, n).victims
  {
  }

  lemma CalmSpares(script: seq<Moment>, n: nat, id: Id)
    ensures (forall m | m >= n :: !MomentAt(script, m).fails && id !in MomentAt(script, m).victims) ==>
              forall to: nat :: SparedCalls(script, n, to, id)
  {
  }

  lemma CalmSplit(script: seq<Moment>, n: nat, a: nat, b: nat)
    ensures Calm(script, n, n + a + b) <==> Calm(script, n, n + a) && Calm(script, n + a, n + a + b)
    ensures Calm(script, n, n + 1) <==> MomentAt(script, n) == CALM
  {
  }

  class Docker {
    var containers: World
    var nextId: Id
    const script: seq<Moment>
    var next: nat             // the number of calls made so far
    var deaths: seq<Id>       // the containers that died by themselves, in order
    var faults: nat           // the API calls that failed for no reason of the caller's
    const images: map<string, ImageId>

    constructor (images: map<string, ImageId>, script: seq<Moment>)
      ensures Valid() && containers == map[] && this.images == images && this.script == script
      ensures nextId == 0 && next == 0 && deaths == [] && faults == 0
    {
      containers := map[];
      nextId, next, deaths, faults := 0, 0, [], 0;
      this.images := images;
      this.script := script;
    }

    ghost predicate Valid()
      reads this
    {
      UniqueNames(containers) && forall i | i in containers :: i < nextId
    }

    /** What holds across every call: logs only grow, and only a failed call leaves a fault. */
    twostate predicate Went(ok: bool)
      reads this
    {
      && Valid() && old(deaths) <= deaths && old(nextId) <= nextId && old(next) <= next
      && old(faults) <= faults && (ok ==> faults == old(faults))
    }

    /** The world is `w` now, up to the deaths since. */
    twostate predicate Became(w: World)
      reads this
    {
      Faded(w, containers, old(deaths), deaths)
    }

    /** Nothing changed but for deaths. */
    twostate predicate OnlyDeaths()
      reads this
    {
      Became(old(containers))
    }

    /** A call that succeeds just if it is possible and the script does not let it fail. */
    twostate predicate Answered(ok: bool, possible: bool)
      reads this
    {
      && next == old(next) + 1
      && ok == (possible && !MomentAt(script, old(next)).fails)
      && (MomentAt(script, old(next)).victims == [] ==> deaths == old(deaths))
    }

    /** Who was to die before the call does not run, and nobody else has died. */
    twostate predicate Struck()
      reads this
    {
      && (forall i | i in MomentAt(script, old(next)).victims && i in containers :: !containers[i].running)
      && (forall i | i !in MomentAt(script, old(next)).victims :: !DiedBetween(i, old(deaths), deaths))
    }

    /** No call made has failed, nor was this container to die before it. */
    twostate predicate Spared(id: Id)
      reads this
    {
      SparedCalls(script, old(next), next, id)
    }

    /** No call made has failed. */
    twostate predicate Unfailing()
      reads this
    {
      forall n | old(next) <= n < next :: !MomentAt(script, n).fails
    }

    /** The script is calm for that many calls. */
    twostate predicate CalmFor(calls: nat)
      reads this
    {
      Calm(script, old(next), old(next) + calls)
    }

    /** That many calls were made, and nobody died. */
    twostate predicate Smooth(calls: nat)
      reads this
    {
      next == old(next) + calls && deaths == old(deaths)
    }

    /** Before a call any running containers may die. */
    method Tick(victims: seq<Id>)
      requires Valid()
      modifies this`containers, this`deaths
      ensures Valid() && OnlyDeaths()
      ensures victims == [] ==> deaths == old(deaths)
      ensures forall i | i in victims && i in containers :: !containers[i].running
      ensures forall i | i !in victims :: !DiedBetween(i, old(deaths), deaths)
    {
      hide Faded, UniqueNames, SetRunning;
      ghost var w0, d0 := containers, deaths;
      FadedReflexive(w0, d0);
      for k := 0 to |victims|
        invariant Valid() && Faded(w0, containers, d0, deaths)
        invariant k == 0 ==> deaths == d0
        invariant forall j | 0 <= j < k && victims[j] in containers :: !containers[victims[j]].running
        invariant d0 <= deaths && forall i | i in deaths[|d0|..] :: i in victims
      {
        var i := victims[k];
        if i in containers && containers[i].running {
          OneMoreDeath(w0, containers, d0, deaths, i);
          SetRunningKeepsUnique(containers, i, false);
          deaths := deaths + [i];
          containers := SetRunning(containers, i, false);
        }
      }
    }

    /** A call that fails does so before it has any effect. */
    method Fails() returns (fault: bool)
      requires Valid()
      modifies this`containers, this`deaths, this`faults, this`next
      ensures Valid() && OnlyDeaths() && Answered(!fault, true) && Struck()
      ensures faults == if fault then old(faults) + 1 else old(faults)
    {
      var moment := MomentAt(script, next);
      next := next + 1;
      Tick(moment.victims);
      fault := moment.fails;
      if fault {
        faults := faults + 1;
      }
    }

    /**
     Lists the containers, stopped ones included, whose name contains `name`, in any order:
     the daemon's filter matches more than the exact name.
     */
    method List(name: string) returns (ok: bool, ids: seq<Id>, names: seq<string>)
      requires Valid()
      modifies this
      ensures Went(ok) && OnlyDeaths() && Answered(ok, true) && Struck() && (!ok ==> faults > old(faults))
      ensures |ids| == |names|
      ensures ok ==> forall k | 0 <= k < |ids| :: ids[k] in containers && containers[ids[k]].name == names[k]
      ensures ok ==> forall i | i in containers && containers[i].name == name :: i in ids
    {
      ids, names := [], [];
      var fault := Fails();
      if fault {
        return false, [], [];
      }
      var rest := containers.Keys;
      while rest != {}
        invariant rest <= containers.Keys && |ids| == |names|
        invariant forall k | 0 <= k < |ids| :: ids[k] in containers && containers[ids[k]].name == names[k]
        invariant forall i | i in containers && i !in rest && containers[i].name == name :: i in ids
        modifies {}
        decreases rest
      {
        var i :| i in rest;
        rest := rest - {i};
        if Infix(name, containers[i].name) {
          ids, names := ids + [i], names + [containers[i].name];
        } else {
          InfixOfItself(name);
        }
      }
      ok := true;
    }

    method Inspect(id: Id) returns (ok: bool, r: Option<Record>)
      requires Valid()
      modifies this
      ensures Went(ok) && OnlyDeaths() && Answered(ok, id in old(containers)) && Struck()
      ensures ok ==> id in containers && r == Some(containers[id])
      ensures !ok ==> r == None && (id in containers ==> faults > old(faults))
    {
      var fault := Fails();
      if fault || id !in containers {
        return false, None;
      }
      return true, Some(containers[id]);
    }

    method Create(name: string, imageName: string, config: Config) returns (ok: bool, id: Id)
      requires Valid()
      modifies this
      ensures Went(ok) && Answered(ok, imageName in images && NameFree(old(containers), name))
      ensures ok ==> imageName in images && id == old(nextId) && id !in old(containers) && NameFree(old(containers), name)
                     && Became(old(containers)[id := Record(name, false, images[imageName], config)])
      ensures ok ==> id in containers && containers[id] == Record(name, false, images[imageName], config)
      ensures !ok ==> OnlyDeaths()
                      && (imageName in images && NameFree(old(containers), name) ==> faults > old(faults))
    {
      hide UniqueNames, DiedBetween;
      id := nextId;
      var fault := Fails();
      hide Faded;
      FadedKeepsNames(old(containers), containers, old(deaths), deaths);
      if fault || imageName !in images || exists i :: i in containers && containers[i].name == name {
        return false, id;
      }
      PutKeepsUnique(containers, id, Record(name, false, images[imageName], config));
      FadedPut(old(containers), containers, old(deaths), deaths, id, Record(name, false, images[imageName], config));
      containers := containers[id := Record(name, false, images[imageName], config)];
      nextId := nextId + 1;
      ok := true;
    }

    method Start(id: Id) returns (ok: bool)
      requires Valid()
      modifies this
      ensures Went(ok) && Answered(ok, id in old(containers))
      ensures ok ==> id in old(containers)
                     && Became(SetRunning(old(containers), id, true))
                     && containers[id].running
      ensures !ok ==> OnlyDeaths() && (id in old(containers) ==> faults > old(faults))
    {
      var fault := Fails();
      if fault || id !in containers {
        return false;
      }
      containers := SetRunning(containers, id, true);
      ok := true;
    }

    method Stop(id: Id) returns (ok: bool)
      requires Valid()
      modifies this
      ensures Went(ok) && Answered(ok, id in old(containers))
      ensures ok ==> id in old(containers)
                     && Became(SetRunning(old(containers), id, false))
      ensures ok ==> id in containers && !containers[id].running
      ensures !ok ==> OnlyDeaths() && (id in old(containers) ==> faults > old(faults))
    {
      var fault := Fails();
      if fault || id !in containers {
        return false;
      }
      containers := SetRunning(containers, id, false);
      ok := true;
    }

    method Rename(id: Id, name: string) returns (ok: bool)
      requires Valid()
      modifies this
      ensures Went(ok) && Answered(ok, id in old(containers) && NameFree(old(containers), name))
      ensures ok ==> id in old(containers) && NameFree(old(containers), name)
                     && Became(SetName(old(containers), id, name))
      ensures ok ==> id in containers && containers[id].name == name
      ensures !ok ==> OnlyDeaths()
                      && (id in old(containers) && NameFree(old(containers), name) ==> faults > old(faults))
    {
      hide UniqueNames, DiedBetween;
      var fault := Fails();
      FadedKeepsNames(old(containers), containers, old(deaths), deaths);
      if fault || id !in containers || exists i :: i in containers && containers[i].name == name {
        return false;
      }
      PutKeepsUnique(containers, id, containers[id].(name := name));
      containers := SetName(containers, id, name);
      ok := true;
    }

    method Remove(id: Id) returns (ok: bool)
      requires Valid()
      modifies this
      ensures Went(ok) && Answered(ok, id in old(containers))
      ensures ok ==> id in old(containers) && Became(old(containers) - {id})
      ensures ok ==> id !in containers
      ensures !ok ==> OnlyDeaths() && (id in old(containers) ==> faults > old(faults))
    {
      var fault := Fails();
      if fault || id !in containers {
        return false;
      }
      containers := containers - {id};
      ok := true;
    }
  }

  /** Does `text` contain `part`? */
  predicate Infix(part: string, text: string) {
    exists k | 0 <= k <= |text| :: part <= text[k..]
  }

  lemma InfixOfItself(name: string)
    ensures Infix(name, name)
  {
    assert name[0..] == name;
  }
}
