/**
 A handle on one container: its name, and its id once that is known. The id is looked up
 on demand, cached, and forgotten when the container is set aside or removed.
 */
module Containers {
  import opened Options
  import opened Daemon

  ghost predicate Named(w: World, id: Id, name: string) {
    id in w && w[id].name == name
  }

  /** The container out of the way: stopped, and renamed if a new name is given. */
  function SetAside(w: World, id: Id, newName: Option<string>): World
    requires id in w
  {
    w[id := w[id].(running := false, name := if newName.Some? then newName.value else w[id].name)]
  }

  lemma FadedNamed(w0: World, w1: World, d0: seq<Id>, d1: seq<Id>, name: string)
    requires Faded(w0, w1, d0, d1)
    ensures forall i :: Named(w0, i, name) <==> Named(w1, i, name)
    ensures NameFree(w0, name) <==> NameFree(w1, name)
    ensures w0.Keys == w1.Keys
    ensures forall i | i in w0 && w1[i].running :: w0[i].running
  {
  }

  lemma FadedSetAside(w0: World, w1: World, d0: seq<Id>, d1: seq<Id>, id: Id, newName: Option<string>)
    requires Faded(w0, w1, d0, d1) && id in w0
    ensures Faded(SetAside(w0, id, newName), SetAside(w1, id, newName), d0, d1)
  {
  }

  /** A container found not running is as good as stopped. */
  lemma FadedNotRunning(w0: World, w1: World, d0: seq<Id>, d1: seq<Id>, id: Id)
    requires Faded(w0, w1, d0, d1) && id in w0 && !w1[id].running
    ensures Faded(SetRunning(w0, id, false), w1, d0, d1)
  {
  }

  lemma SetAsideInSteps(w: World, id: Id, name: string)
    requires id in w
    ensures SetRunning(w, id, false).Keys == w.Keys
    ensures NameFree(SetRunning(w, id, false), name) <==> NameFree(w, name)
    ensures SetAside(w, id, None) == SetRunning(w, id, false)
    ensures SetAside(w, id, Some(name)) == SetName(SetRunning(w, id, false), id, name)
  {
  }

  lemma PutThenRun(w: World, id: Id, r: Record)
    ensures SetRunning(w[id := r], id, true) == w[id := r.(running := true)]
  {
  }

  lemma SetRunningThenRemove(w: World, id: Id)
    requires id in w
    ensures SetRunning(w, id, false) - {id} == w - {id}
  {
  }

  lemma NamedIsTaken(w: World, name: string)
    ensures NameFree(w, name) <==> !exists i :: Named(w, i, name)
  {
    assert forall i :: Named(w, i, name) <==> i in w && w[i].name == name;
  }

  lemma OnlyOneNamed(w: World, id: Id, name: string)
    requires UniqueNames(w) && Named(w, id, name)
    ensures forall i | Named(w, i, name) :: i == id
  {
  }

  lemma FadedRunning(w0: World, w1: World, d0: seq<Id>, d1: seq<Id>, id: Id)
    requires Faded(w0, w1, d0, d1) && id in w0 && !w0[id].running
    ensures id in w1 && !w1[id].running
  {
  }

  lemma StillRunning(w0: World, w1: World, d0: seq<Id>, d1: seq<Id>, id: Id)
    requires Faded(w0, w1, d0, d1) && id in w0
    ensures id in w1 && (w0[id].running && !DiedBetween(id, d0, d1) ==> w1[id].running)
  {
  }

  /** How one level of starting a container ends. */
  datatype Level = Started | Again | Broken

  /** Without deaths in between the world stands still. */
  lemma FadedStands(w0: World, w1: World, d0: seq<Id>, d1: seq<Id>)
    requires Faded(w0, w1, d0, d1)
    ensures d0 <= d1
    ensures d0 == d1 ==> w0 == w1
  {
  }

  /** The calls it takes to see to it that the container does not run. */
  function StopCalls(w: World, id: Id): nat
    requires id in w
  {
    if w[id].running then 2 else 1
  }

  class Container {
    const daemon: Docker
    var id: Option<Id>
    var name: string
    var image: Option<string>
    var config: Config

    constructor (daemon: Docker, name: string, id: Option<Id>)
      ensures this.daemon == daemon && this.name == name && this.id == id
      ensures image == None && config == Config(map[], [], map[], map[], None)
    {
      this.daemon := daemon;
      this.name := name;
      this.id := id;
      image := None;
      config := Config(map[], [], map[], map[], None);
    }

    /** The id stays once it is known; a newly found one is that of the container with the exact name. */
    twostate predicate Resolves()
      reads this, daemon
    {
      && (old(id).Some? ==> id == old(id))
      && (old(id).None? && id.Some? ==> Named(old(daemon.containers), id.value, name))
    }

    /** The cached id, if any, is that of a container. */
    ghost predicate Known()
      reads this, daemon
    {
      id.Some? ==> id.value in daemon.containers
    }

    method EnsureID() returns (ok: bool, found: Option<Id>)
      requires daemon.Valid()
      modifies this`id, daemon
      ensures daemon.Went(ok) && daemon.OnlyDeaths()
      ensures Resolves() && (ok ==> found == id)
      ensures ok && id.None? ==> NameFree(old(daemon.containers), name)
      ensures !ok ==> id.None? && daemon.faults > old(daemon.faults)
      ensures old(id).Some? ==> ok && daemon.Smooth(0) && unchanged(this) && unchanged(daemon)
      ensures old(id).None? ==> daemon.Answered(ok, true)
      ensures ok && id.Some? && id.value in daemon.containers && daemon.containers[id.value].running ==> daemon.Spared(id.value)
      ensures daemon.Unfailing() ==> ok
      ensures id.Some? && daemon.Spared(id.value) ==> !DiedBetween(id.value, old(daemon.deaths), daemon.deaths)
    {
      if id.Some? {
        FadedReflexive(daemon.containers, daemon.deaths);
        return true, id;
      }
      var ids, names;
      ok, ids, names := daemon.List(name);
      FadedNamed(old(daemon.containers), daemon.containers, old(daemon.deaths), daemon.deaths, name);
      if !ok {
        return false, None;
      }
      // The first listed container with exactly this name.
      for k := 0 to |ids|
        invariant id.None? && forall j | 0 <= j < k :: names[j] != name
      {
        if names[k] == name {
          assert Named(daemon.containers, ids[k], name);
          id := Some(ids[k]);
          return true, id;
        }
      }
      return true, None;
    }

    method Exists() returns (ok: bool, there: bool)
      requires daemon.Valid()
      modifies this`id, daemon
      ensures daemon.Went(ok) && daemon.OnlyDeaths()
      ensures Resolves() && (ok ==> there == id.Some?)
      ensures ok && id.None? ==> NameFree(old(daemon.containers), name)
      ensures !ok ==> id.None? && daemon.faults > old(daemon.faults)
      ensures old(id).Some? ==> ok && daemon.Smooth(0)
      ensures old(id).None? ==> daemon.Answered(ok, true)
    {
      var found;
      ok, found := EnsureID();
      there := found.Some?;
    }

    method IsRunning() returns (ok: bool, running: bool)
      requires daemon.Valid() && Known()
      modifies this`id, daemon
      ensures daemon.Went(ok) && daemon.OnlyDeaths()
      ensures Resolves() && Known()
      ensures ok && id.None? ==> NameFree(old(daemon.containers), name)
      ensures ok ==> running == (id.Some? && daemon.containers[id.value].running)
      ensures !ok ==> daemon.faults > old(daemon.faults)
      ensures old(id).Some? ==> daemon.Answered(ok, true)
      ensures ok && running ==> daemon.Spared(id.value)
      ensures daemon.Unfailing() ==> ok
      ensures id.Some? && daemon.Spared(id.value) ==> !DiedBetween(id.value, old(daemon.deaths), daemon.deaths)
    {
      hide SparedCalls, DiedBetween;
      ghost var n0, d0 := daemon.next, daemon.deaths;
      var found;
      ok, found := EnsureID();
      if !ok || found.None? {
        return ok, false;
      }
      ghost var w1, d1, n1 := daemon.containers, daemon.deaths, daemon.next;
      var r;
      ok, r := daemon.Inspect(found.value);
      FadedTransitive(old(daemon.containers), w1, daemon.containers, old(daemon.deaths), d1, daemon.deaths);
      SparedTwice(daemon.script, n0, n1, daemon.next, d0, d1, daemon.deaths, found.value);
      SparedOnce(daemon.script, n1, found.value);
      running := ok && r.value.running;
    }

    method GetImageID() returns (ok: bool, imageId: ImageId)
      requires daemon.Valid() && Known()
      modifies this`id, daemon
      ensures daemon.Went(ok) && daemon.OnlyDeaths()
      ensures Resolves() && Known()
      ensures ok ==> id.Some? && daemon.containers[id.value].image == imageId
      ensures !ok ==> daemon.faults > old(daemon.faults) || (old(id).None? && NameFree(old(daemon.containers), name))
    {
      imageId := 0;
      var there;
      ok, there := Exists();
      if !ok || !there {
        return false, 0;
      }
      ghost var w1, d1 := daemon.containers, daemon.deaths;
      var r;
      ok, r := daemon.Inspect(id.value);
      FadedTransitive(old(daemon.containers), w1, daemon.containers, old(daemon.deaths), d1, daemon.deaths);
      if ok {
        imageId := r.value.image;
      }
    }

    /** Creates the container under this name unless there is one. */
    method EnsureContainer() returns (ok: bool)
      requires daemon.Valid() && Known()
      requires id.Some? || image.Some?
      modifies this`id, daemon
      ensures daemon.Went(ok) && Known()
      ensures ok ==> id.Some?
      ensures old(id).Some? ==> ok && daemon.Smooth(0) && unchanged(this) && unchanged(daemon)
      ensures ok && (old(id).Some? || !NameFree(old(daemon.containers), name)) ==>
                Resolves() && daemon.OnlyDeaths()
      ensures ok && old(id).None? && NameFree(old(daemon.containers), name) ==>
                && id.Some? && id.value >= old(daemon.nextId) && id.value !in old(daemon.containers)
                && image.value in daemon.images
                && daemon.Became(old(daemon.containers)[id.value := Record(name, false, daemon.images[image.value], config)])
      ensures !ok ==> id.None? && old(id).None? && daemon.OnlyDeaths()
      ensures !ok ==> daemon.faults > old(daemon.faults) || (NameFree(old(daemon.containers), name) && image.value !in daemon.images)
      // A creation takes two calls, and their answers decide.
      ensures old(id).None? && NameFree(old(daemon.containers), name) ==>
                && ok == (image.value in daemon.images && !MomentAt(daemon.script, old(daemon.next)).fails
                          && !MomentAt(daemon.script, old(daemon.next) + 1).fails)
                && (ok && daemon.CalmFor(2) ==> daemon.Smooth(2))
    {
      var found;
      ok, found := EnsureID();
      if !ok || found.Some? {
        return;
      }
      ghost var w1, d1 := daemon.containers, daemon.deaths;
      FadedNamed(old(daemon.containers), w1, old(daemon.deaths), d1, name);
      var newId;
      ok, newId := daemon.Create(name, image.value, config);
      if !ok {
        FadedTransitive(old(daemon.containers), w1, daemon.containers, old(daemon.deaths), d1, daemon.deaths);
        return;
      }
      id := Some(newId);
      ghost var r := Record(name, false, daemon.images[image.value], config);
      FadedPut(old(daemon.containers), w1, old(daemon.deaths), d1, newId, r);
      FadedTransitive(old(daemon.containers)[newId := r], w1[newId := r], daemon.containers,
                      old(daemon.deaths), d1, daemon.deaths);
    }

    /** Will this handle meet a running container? */
    ghost predicate MeetsRunning()
      reads this, daemon
    {
      if id.Some? then id.value in daemon.containers && daemon.containers[id.value].running
      else exists i :: Named(daemon.containers, i, name) && daemon.containers[i].running
    }

    /** Is this the container the handle stands for, by id or else by name? */
    ghost predicate Meets(i: Id)
      reads this, daemon
    {
      if id.Some? then i == id.value else Named(daemon.containers, i, name)
    }

    /**
     Does the script have something in store, for a running container this handle meets,
     that ends its being asked for: a call that fails, or its death?
     */
    ghost predicate Disturbed()
      reads this, daemon
    {
      exists n, i | daemon.next <= n && Meets(i) ::
        MomentAt(daemon.script, n).fails || i in MomentAt(daemon.script, n).victims
    }

    /** Resolves the id, then asks whether the container runs. */
    method Look() returns (ok: bool, found: Option<Id>, running: bool)
      requires daemon.Valid() && Known()
      modifies this`id, daemon
      ensures daemon.Went(ok) && daemon.OnlyDeaths()
      ensures Resolves() && Known()
      ensures ok ==> found == id && (found.None? ==> NameFree(old(daemon.containers), name))
      ensures ok ==> running == (id.Some? && daemon.containers[id.value].running)
      ensures !ok ==> daemon.faults > old(daemon.faults)
      ensures old(id).Some? ==> daemon.Answered(ok, true)
      ensures ok ==> daemon.next > old(daemon.next)
      ensures ok && running ==> daemon.Spared(id.value)
      ensures daemon.Unfailing() ==> ok
      ensures id.Some? && daemon.Spared(id.value) ==> !DiedBetween(id.value, old(daemon.deaths), daemon.deaths)
      // A running container is found running unless it dies or a call fails, and certainly if the script has neither in store.
      ensures old(MeetsRunning()) && ok ==>
                found.Some? && (running || DiedBetween(found.value, old(daemon.deaths), daemon.deaths))
      ensures old(MeetsRunning() && !Disturbed()) ==> ok && running
    {
      hide Faded, UniqueNames, MomentAt, SparedCalls, DiedBetween;
      ghost var w0, d0, n0 := daemon.containers, daemon.deaths, daemon.next;
      ghost var met, calm := MeetsRunning(), !Disturbed();
      ghost var who: Id := 0;
      if met {
        who :| Meets(who) && who in w0 && w0[who].running;
        assert calm ==> forall n | n >= daemon.next ::
            !MomentAt(daemon.script, n).fails && who !in MomentAt(daemon.script, n).victims;
        CalmSpares(daemon.script, n0, who);
      }
      ok, found := EnsureID();
      ghost var w1, d1, n1 := daemon.containers, daemon.deaths, daemon.next;
      FadedNamed(w0, w1, d0, d1, name);
      if !ok {
        return ok, found, false;
      }
      ok, running := IsRunning();
      FadedTransitive(w0, w1, daemon.containers, d0, d1, daemon.deaths);
      FadedNamed(w0, daemon.containers, d0, daemon.deaths, name);
      FadedNamed(w1, daemon.containers, d1, daemon.deaths, name);
      if found.Some? {
        SparedTwice(daemon.script, n0, n1, daemon.next, d0, d1, daemon.deaths, found.value);
      }
      if met && ok {
        NamedIsTaken(w0, name);
        if old(id).None? {
          OnlyOneNamed(w0, who, name);
        }
        StillRunning(w0, daemon.containers, d0, daemon.deaths, who);
      }
    }

    /**
     One level of starting the container: start it if it is there and not running; otherwise
     see that it is there and ask for another level.
     */
    method StartLevel() returns (level: Level)
      requires daemon.Valid() && Known()
      requires id.Some? || image.Some?
      modifies this`id, daemon
      ensures daemon.Went(!level.Broken?) && Known()
      ensures level.Started? ==>
                && Resolves() && id.Some? && daemon.containers[id.value].running
                && daemon.Became(SetRunning(old(daemon.containers), id.value, true))
      ensures level.Again? ==> id.Some?
      ensures level.Again? && old(id).None? && NameFree(old(daemon.containers), name) ==>
                && id.value >= old(daemon.nextId) && image.value in daemon.images
                && daemon.Became(old(daemon.containers)[id.value := Record(name, false, daemon.images[image.value], config)])
      ensures level.Again? && (old(id).Some? || !NameFree(old(daemon.containers), name)) ==>
                Resolves() && daemon.OnlyDeaths() && id.value in old(daemon.containers) && old(daemon.containers)[id.value].running
                && daemon.next > old(daemon.next) && daemon.Spared(id.value)
      ensures level.Broken? ==> Resolves() && daemon.OnlyDeaths()
      ensures level.Broken? ==>
                daemon.faults > old(daemon.faults)
                || (old(id).None? && NameFree(old(daemon.containers), name) && image.value !in daemon.images)
      // With the id at hand and the container not running, two calls decide.
      ensures old(id).Some? && !old(daemon.containers)[old(id).value].running ==>
                && level.Started? == (!MomentAt(daemon.script, old(daemon.next)).fails
                                      && !MomentAt(daemon.script, old(daemon.next) + 1).fails)
                && (daemon.CalmFor(2) ==> daemon.Smooth(2))
      // A running container is asked for again, unless it dies or a call fails - and so it is
      // with all that follows, if the script has neither in store.
      ensures old(MeetsRunning()) && daemon.faults == old(daemon.faults)
              && (id.Some? ==> !DiedBetween(id.value, old(daemon.deaths), daemon.deaths)) ==>
                level.Again? && MeetsRunning()
      ensures old(MeetsRunning() && !Disturbed()) ==>
                level.Again? && MeetsRunning()
    {
      hide Faded, UniqueNames, NameFree, Calm, MomentAt, DiedBetween;
      ghost var w0, d0 := daemon.containers, daemon.deaths;
      ghost var met := MeetsRunning();
      CalmSplit(daemon.script, daemon.next, 1, 1);
      CalmSplit(daemon.script, daemon.next + 1, 1, 0);
      var ok, found, running := Look();
      ghost var w2, d2 := daemon.containers, daemon.deaths;
      FadedNamed(w0, w2, d0, d2, name);
      if !ok {
        return Broken;
      }
      NamedIsTaken(w0, name);
      if found.Some? && !running {
        ok := daemon.Start(found.value);
        if !ok {
          FadedTransitive(w0, w2, daemon.containers, d0, d2, daemon.deaths);
          return Broken;
        }
        FadedSetRunning(w0, w2, d0, d2, found.value, true);
        FadedTransitive(SetRunning(w0, found.value, true), SetRunning(w2, found.value, true), daemon.containers,
                        d0, d2, daemon.deaths);
        if met {
          DiedBetweenMonotone(found.value, d0, d2, daemon.deaths);
        }
        return Started;
      }
      ok := EnsureContainer();
      ghost var w3, d3 := daemon.containers, daemon.deaths;
      level := if ok then Again else Broken;
      if found.Some? || !ok {
        FadedStands(w2, w3, d2, d3);
        FadedTransitive(w0, w2, w3, d0, d2, d3);
      } else {
        ghost var r := Record(name, false, daemon.images[image.value], config);
        FadedPut(w0, w2, d0, d2, id.value, r);
        FadedTransitive(w0[id.value := r], w2[id.value := r], w3, d0, d2, d3);
      }
    }

    /**
     Starts the container, creating it if need be, by calling itself. On a container that is
     absent or not running it does so at most once, after the creation. A running one it
     asks for again and again until the container dies or a call fails; if neither is ever
     to happen it does not return (see `StartLevel`).
     */
    method EnsureContainerRunning() returns (ok: bool, ghost levels: nat)
      requires daemon.Valid() && Known()
      requires id.Some? || image.Some?
      requires MeetsRunning() ==> Disturbed()
      modifies this`id, daemon
      ensures daemon.Went(ok) && Known()
      ensures !old(MeetsRunning()) ==> levels <= if old(id).Some? then 1 else 2
      ensures ok ==> id.Some? && daemon.containers[id.value].running
      ensures old(id).Some? || !NameFree(old(daemon.containers), name) ==>
                && Resolves()
                && (ok ==> daemon.Became(SetRunning(old(daemon.containers), id.value, true)))
                && (!ok ==> daemon.OnlyDeaths())
      ensures old(id).None? && NameFree(old(daemon.containers), name) ==>
                && (ok ==> id.value >= old(daemon.nextId) && image.value in daemon.images
                           && daemon.Became(old(daemon.containers)[id.value := Record(name, true, daemon.images[image.value], config)]))
                && (!ok && id.None? ==> daemon.OnlyDeaths())
                && (!ok && id.Some? ==>
                      && id.value >= old(daemon.nextId) && image.value in daemon.images
                      && daemon.Became(old(daemon.containers)[id.value := Record(name, false, daemon.images[image.value], config)]))
      ensures !ok ==> daemon.faults > old(daemon.faults) || (old(id).None? && image.value !in daemon.images)
      ensures old(id).Some? && !old(MeetsRunning()) ==>
                && ok == (!MomentAt(daemon.script, old(daemon.next)).fails
                          && !MomentAt(daemon.script, old(daemon.next) + 1).fails)
                && (daemon.CalmFor(2) ==> daemon.Smooth(2))
      decreases if MeetsRunning() then |daemon.script| - daemon.next else 0, id.None?
    {
      hide Faded, UniqueNames;
      ghost var w0, d0 := daemon.containers, daemon.deaths;
      ghost var created := id.None? && NameFree(w0, name);
      ghost var disturbed := MeetsRunning();
      ghost var at: nat, who: Id := 0, 0;
      if disturbed {
        at, who :| daemon.next <= at && Meets(who)
                   && (MomentAt(daemon.script, at).fails || who in MomentAt(daemon.script, at).victims);
        if id.None? {
          OnlyOneNamed(w0, who, name);
        }
      }
      NamedIsTaken(w0, name);
      levels := 1;
      var level := StartLevel();
      ok := level.Started?;
      if !level.Again? {
        return;
      }
      ghost var w1, d1 := daemon.containers, daemon.deaths;
      ghost var newId := id.value;
      ghost var r := Record(name, false, if created then daemon.images[image.value] else 0, config);
      if created {
        FadedNamed(w0[newId := r], w1, d0, d1, name);
      } else {
        FadedNamed(w0, w1, d0, d1, name);
        assert Named(w0, newId, name) || old(id) == Some(newId);
        assert disturbed && who == newId;
        assert daemon.next <= at && Meets(who);
      }
      ok, levels := EnsureContainerRunning();
      levels := levels + 1;
      if !created {
        if ok {
          FadedSetRunning(w0, w1, d0, d1, newId, true);
          FadedTransitive(SetRunning(w0, newId, true), SetRunning(w1, newId, true), daemon.containers, d0, d1, daemon.deaths);
        } else {
          FadedTransitive(w0, w1, daemon.containers, d0, d1, daemon.deaths);
        }
      } else if ok {
        FadedSetRunning(w0[newId := r], w1, d0, d1, newId, true);
        PutThenRun(w0, newId, r);
        FadedTransitive(w0[newId := r.(running := true)], SetRunning(w1, newId, true), daemon.containers, d0, d1, daemon.deaths);
      } else {
        FadedTransitive(w0[newId := r], w1, daemon.containers, d0, d1, daemon.deaths);
      }
    }

    /**
     The converse: a running container that is never to die, on a daemon where no call is to
     fail, is asked for again by any number of levels in turn, so that the call above would
     not return.
     */
    method AskAgain(levels: nat) returns (level: Level)
      requires daemon.Valid() && Known()
      requires id.Some? || image.Some?
      requires MeetsRunning() && !Disturbed()
      modifies this`id, daemon
      ensures daemon.Went(false) && Known() && daemon.OnlyDeaths()
      ensures level == Again && MeetsRunning() && !Disturbed()
      ensures daemon.next >= old(daemon.next) + levels
    {
      hide Faded, UniqueNames, MomentAt;
      ghost var w0, d0, n0 := daemon.containers, daemon.deaths, daemon.next;
      ghost var who: Id;
      who :| Meets(who) && who in w0 && w0[who].running;
      assert Meets(who);
      assert id.None? ==> Named(daemon.containers, who, name);
      ghost var safe := forall n | n >= n0 ::
          !MomentAt(daemon.script, n).fails && who !in MomentAt(daemon.script, n).victims;
      assert safe;
      if id.None? {
        OnlyOneNamed(w0, who, name);
      }
      FadedReflexive(w0, d0);
      level := Again;
      for k := 0 to levels
        invariant daemon.Went(false) && Known() && (id.Some? || image.Some?)
        invariant Faded(w0, daemon.containers, d0, daemon.deaths)
        invariant level == Again && MeetsRunning()
        invariant if id.Some? then id.value == who else forall i | Named(daemon.containers, i, name) :: i == who
        invariant daemon.next >= n0 + k
      {
        ghost var w1, d1 := daemon.containers, daemon.deaths;
        NamedIsTaken(w1, name);
        level := StartLevel();
        assert id.value == who;
        FadedTransitive(w0, w1, daemon.containers, d0, d1, daemon.deaths);
      }
    }

    /** Renames the container, if the new name differs, and remembers the new name. */
    method Rename(newName: string) returns (ok: bool)
      requires daemon.Valid() && Known()
      modifies this`id, this`name, daemon
      ensures daemon.Went(ok) && Known()
      ensures old(id).Some? ==> id == old(id)
      ensures old(id).None? && id.Some? ==> Named(old(daemon.containers), id.value, old(name))
      ensures ok ==> id.Some? && name == newName
      ensures ok && newName != old(name) ==>
                NameFree(old(daemon.containers), newName)
                && daemon.Became(SetName(old(daemon.containers), id.value, newName))
      ensures !ok || newName == old(name) ==> daemon.OnlyDeaths()
      ensures !ok ==> name == old(name)
      ensures !ok && old(id).Some? && NameFree(old(daemon.containers), newName) ==> daemon.faults > old(daemon.faults)
      ensures old(id).Some? && newName != old(name) ==> daemon.Answered(ok, NameFree(old(daemon.containers), newName))
    {
      ghost var w0, d0 := daemon.containers, daemon.deaths;
      var there;
      ok, there := Exists();
      if !ok || !there {
        return false;
      }
      if newName != name {
        ghost var w1, d1 := daemon.containers, daemon.deaths;
        FadedNamed(w0, w1, d0, d1, newName);
        ok := daemon.Rename(id.value, newName);
        if !ok {
          FadedTransitive(w0, w1, daemon.containers, d0, d1, daemon.deaths);
          return;
        }
        FadedSetName(w0, w1, d0, d1, id.value, newName);
        FadedTransitive(SetName(w0, id.value, newName), SetName(w1, id.value, newName), daemon.containers, d0, d1, daemon.deaths);
        name := newName;
      }
    }

    /** Sees to it that the container does not run. */
    method StopIfRunning() returns (ok: bool)
      requires daemon.Valid() && Known() && id.Some?
      modifies this`id, daemon
      ensures daemon.Went(ok) && Known() && id == old(id)
      ensures ok ==> daemon.Became(SetRunning(old(daemon.containers), id.value, false))
      ensures !ok ==> daemon.OnlyDeaths() && daemon.faults > old(daemon.faults)
      ensures var calls := StopCalls(old(daemon.containers), id.value);
              daemon.CalmFor(calls) ==> ok && daemon.Smooth(calls)
    {
      hide Faded, UniqueNames, SetRunning, NameFree;
      ghost var w0, d0 := daemon.containers, daemon.deaths;
      var running;
      ok, running := IsRunning();
      ghost var w1, d1 := daemon.containers, daemon.deaths;
      FadedNamed(w0, w1, d0, d1, name);
      if !ok {
        return;
      }
      var t := id.value;
      SetAsideInSteps(w0, t, name);
      FadedStands(w0, w1, d0, d1);
      if !running {
        FadedNotRunning(w0, w1, d0, d1, t);
        return;
      }
      ok := daemon.Stop(t);
      if !ok {
        FadedTransitive(w0, w1, daemon.containers, d0, d1, daemon.deaths);
        return;
      }
      FadedSetRunning(w0, w1, d0, d1, t, false);
      FadedTransitive(SetRunning(w0, t, false), SetRunning(w1, t, false), daemon.containers, d0, d1, daemon.deaths);
      FadedNamed(SetRunning(w0, t, false), daemon.containers, d0, daemon.deaths, name);
    }

    /**
     Stops the container if it is running, renames it if `newName` differs from this
     handle's name, and forgets the id. Without a container nothing is done.
     */
    method StopAndRename(newName: string) returns (ok: bool, ghost target: Option<Id>, ghost stopped: bool)
      requires daemon.Valid() && Known()
      modifies this`id, daemon
      ensures daemon.Went(ok) && Known()
      ensures old(id).Some? && (ok || id.Some?) ==> target == old(id)
      ensures old(id).None? && target.Some? ==> Named(old(daemon.containers), target.value, name)
      ensures target.Some? ==> target.value in old(daemon.containers)
      ensures ok ==> id == None
      ensures ok && target.None? ==> NameFree(old(daemon.containers), name) && daemon.OnlyDeaths()
      ensures ok && target.Some? ==>
                && (newName != name ==> NameFree(old(daemon.containers), newName))
                && daemon.Became(SetAside(old(daemon.containers), target.value, if newName == name then None else Some(newName)))
      ensures !ok ==> id == target && (old(id).Some? ==> id == old(id))
      ensures !ok && !stopped ==> daemon.OnlyDeaths()
      ensures !ok && stopped ==>
                target.Some? && daemon.Became(SetRunning(old(daemon.containers), target.value, false))
      ensures !ok && newName == name ==> !stopped
      ensures !ok ==> daemon.faults > old(daemon.faults)
                      || (newName != name && !NameFree(old(daemon.containers), newName))
      ensures old(id).Some? && (newName != name ==> NameFree(old(daemon.containers), newName)) ==>
                var calls := StopCalls(old(daemon.containers), old(id).value) + if newName == name then 0 else 1;
                daemon.CalmFor(calls) ==> ok && daemon.Smooth(calls)
    {
      hide Faded, UniqueNames, SetRunning, SetName, SetAside, NameFree, Calm, MomentAt;
      ghost var w0, d0 := daemon.containers, daemon.deaths;
      stopped := false;
      var there;
      ok, there := Exists();
      target := id;
      ghost var w1, d1 := daemon.containers, daemon.deaths;
      FadedNamed(w0, w1, d0, d1, name);
      FadedStands(w0, w1, d0, d1);
      if !ok || !there {
        return;
      }
      var t := id.value;
      CalmSplit(daemon.script, old(daemon.next), StopCalls(w0, t), 1);
      CalmSplit(daemon.script, old(daemon.next) + StopCalls(w0, t), 1, 0);
      ok := StopIfRunning();
      ghost var w2, d2 := daemon.containers, daemon.deaths;
      FadedNamed(w0, w1, d0, d1, newName);
      if !ok {
        FadedTransitive(w0, w1, w2, d0, d1, d2);
        return;
      }
      FadedSetRunning(w0, w1, d0, d1, t, false);
      FadedTransitive(SetRunning(w0, t, false), SetRunning(w1, t, false), w2, d0, d1, d2);
      stopped := true;
      SetAsideInSteps(w0, t, newName);
      FadedNamed(SetRunning(w0, t, false), w2, d0, d2, newName);
      if newName != name {
        ok := daemon.Rename(t, newName);
        if !ok {
          FadedTransitive(SetRunning(w0, t, false), w2, daemon.containers, d0, d2, daemon.deaths);
          return;
        }
        FadedSetName(SetRunning(w0, t, false), w2, d0, d2, t, newName);
        FadedTransitive(SetAside(w0, t, Some(newName)), SetName(w2, t, newName), daemon.containers, d0, d2, daemon.deaths);
      }
      id := None;
    }

    /**
     Stops and removes the container this handle has an id for. Without a cached id the
     call ends in a nil dereference, which its caller sees as an error - after the
     container of this name, if there is one, has been stopped.
     */
    method Purge() returns (ok: bool, ghost target: Option<Id>, ghost stopped: bool)
      requires daemon.Valid() && Known()
      modifies this`id, daemon
      ensures daemon.Went(ok)
      ensures old(id).None? ==> !ok
      ensures ok ==> id == None && target == old(id)
                     && daemon.Became(old(daemon.containers) - {target.value})
      ensures old(id).Some? && target.Some? ==> target == old(id)
      ensures old(id).None? && target.Some? ==> Named(old(daemon.containers), target.value, name)
      ensures target.Some? ==> target.value in old(daemon.containers)
      ensures !ok && !stopped ==> daemon.OnlyDeaths()
      ensures !ok && stopped ==>
                target.Some? && daemon.Became(SetRunning(old(daemon.containers), target.value, false))
      ensures !ok ==> daemon.faults > old(daemon.faults) || old(id).None?
      // Without a cached id the container of the name is stopped unless a call fails.
      ensures old(id).None? ==>
                if daemon.faults > old(daemon.faults) then !stopped
                else if target.Some? then stopped else NameFree(old(daemon.containers), name)
      ensures old(id).Some? ==>
                var calls := StopCalls(old(daemon.containers), old(id).value) + 1;
                daemon.CalmFor(calls) ==> ok && daemon.Smooth(calls)
    {
      hide Faded, UniqueNames, Calm, MomentAt;
      ghost var w0, d0 := daemon.containers, daemon.deaths;
      var containerID := id;
      if containerID.Some? {
        CalmSplit(daemon.script, old(daemon.next), StopCalls(w0, containerID.value), 1);
        CalmSplit(daemon.script, old(daemon.next) + StopCalls(w0, containerID.value), 1, 0);
      }
      ok, target, stopped := StopAndRename(name);
      if !ok {
        return;
      }
      ghost var w1, d1 := daemon.containers, daemon.deaths;
      stopped := target.Some?;
      if stopped {
        SetAsideInSteps(w0, target.value, name);
        FadedNamed(SetRunning(w0, target.value, false), w1, d0, d1, name);
      }
      if containerID.None? {
        return false, target, stopped;
      }
      ok := daemon.Remove(containerID.value);
      if !ok {
        FadedTransitive(SetRunning(w0, target.value, false), w1, daemon.containers, d0, d1, daemon.deaths);
        return;
      }
      FadedWithout(SetRunning(w0, target.value, false), w1, d0, d1, target.value);
      SetRunningThenRemove(w0, target.value);
      FadedTransitive(w0 - {target.value}, w1 - {target.value}, daemon.containers, d0, d1, daemon.deaths);
      id := None;
    }
  }
}
